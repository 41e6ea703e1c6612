# role-cmd: the role command's decision layer

This project models the `role` chat command of the chremoas bot. The command
receives tokens such as `!role create <name> <filter> <description...>` and a
caller identity `<platform>:<user-id>`. It looks the subcommand up in a
registry and runs its handler. A handler:

- checks its argument count, except `list`, `keys`, `sync` and `list_roles`, which do not;
- asks the permission service before its `AddRole`, `RemoveRole` or `Set` call (`create`, `destroy`, `set`);
- makes at most one call to the role service and passes its reply on.

The `keys` handler formats the role keys it fetches into a fenced text block.

Each handler is a function from the request and an environment `Env` to an
`Outcome`. An `Outcome` is the reply plus the trace of collaborator calls,
in order. `Env` holds everything that comes from outside:

- the permission service's answer (`PermErr(msg)` or `PermAnswer(bool)`);
- the `IsDiscordUser` test of services-common, as a function parameter;
- the results of the key and type fetches;
- what the `args` library does with a subcommand that has no handler: return an error, or write a reply of its own.

Replies are tagged by the wrapper that made them: `Success`, `Error` or
`Fatal`. `Forwarded(call)` stands for the string the role service returned
for `call`. `Library(text)` stands for a reply the `args` library wrote
itself. The exact prefixes the wrappers add are not modelled.

Files:

- `remote.dfy` (module `Remote`): the collaborator calls, each with its exact arguments.
- `strings.dfy` (module `Strings`): Go's `strings.Split` and `strings.Join`, proved inverse to each other.
- `listing.dfy` (module `Listing`): the buffer loop of `roleKeys`/`roleTypes`, with a parser proved inverse to it for single-line values.
- `command.dfy` (module `Command`): the handlers, the permission gate, the registry and `Exec`.
- `wrappers.dfy` (module `Wrappers`): `Option`.

The mutating role-service calls are `AddRole`, `RemoveRole`, `Set` and
`SyncRoles`. `SyncRoles` asks the role-srv client to sync roles to the chat
service; the model counts it as mutating because that can change roles.

The key ordering promise is stated on `Command.Handle`. For every handler
except `sync`, a mutating call appears only after a permission check that
answered true. A wrong argument count gives the handler's usage error with
an empty trace. A handler makes at most one role-service call.

Points where the code behaves in a way a reader might not expect:

- `syncRoles` checks no permission before it asks the role service to sync, and that request can change the role directory. `Command.SyncUngated` shows it.
- The `create` description is the remaining tokens joined with single spaces. No quote is stripped.
- An empty key list is not a separate message: the reply is the header alone inside the fence (`Command.EmptyListing`).
- Reconciliation of roles against the chat service is not in this code: `sync` only calls `SyncRoles` of the role-srv client.

## Model

| member | source | states |
|---|---|---|
| Strings.Split | command/command.go:197 | the sender splits into one more field than it has ':' characters; no field contains ':'; there are at least two fields exactly when ':' occurs |
| Strings.SplitJoin | command/command.go:109 | joining tokens that contain no separator and splitting again gives back the same tokens |
| Strings.JoinSplit | command/command.go:197 | joining the fields of any split string with the separator gives back the string |
| Listing.BuildBody | command/command.go:70-73 | the buffer loop yields the header followed by one tab-indented, newline-ended line per value, in order |
| Listing.ParseLines | command/command.go:71-73 | whatever parses as listing lines is exactly the lines of the values returned, none of which contains a newline |
| Listing.ParseRendered | command/command.go:75 | whatever parses as a fenced listing under a header is exactly the fenced rendering of the values returned |
| Listing.ParseRender | command/command.go:70-75 | the fenced listing of single-line values parses back to exactly those values, so the reply determines the keys and their order |
| Command.Gate | command/command.go:100-107 | the permission check is the first call; an error gives Fatal with its text and a refusal gives the permission error, each with no further call; only a true answer continues |
| Command.DescriptionWords | command/command.go:109 | when no token from args[4] on contains a space, the role description, split on spaces, gives back exactly those tokens |
| Command.AddRole | command/command.go:95-129 | fewer than 5 tokens gives the usage error and no call; otherwise the permission check comes first; on an error or a refusal nothing else is called; after permission, a Discord-user short name is rejected first, then a Discord-user description; the AddRole call is made exactly when every check passed, with sender, args[2], "discord", args[3], "wildcard", false, the joined description, false |
| Command.ListRoles | command/command.go:131-140 | one ListRoles call whose first flag is true exactly when there are 3 tokens and args[2] is "all", second flag false |
| Command.RemoveRole | command/command.go:142-157 | any count but 3 gives the usage error and no call; a permission error gives Fatal and a refusal the permission error, with only the check made; on permission the only role call is RemoveRole(sender, args[2], false) |
| Command.RoleInfo | command/command.go:159-165 | any count but 3 gives the usage error and no call; otherwise exactly RoleInfo(sender, args[2], false), no permission check |
| Command.SyncRoles | command/command.go:167-169 | exactly one call, SyncRoles(sender), and its reply is passed on |
| Command.SetRoles | command/command.go:171-186 | any count but 5 gives the usage error and no call; permission error gives Fatal and refusal the permission error, with only the check made; on permission the only role call is Set(sender, args[2], args[3], args[4]) |
| Command.GetMembers | command/command.go:188-194 | any count but 3 gives the usage error and no call; otherwise exactly GetMembers(args[2]) |
| Command.SecondField | command/command.go:197-198 | a sender `p:u`, followed by nothing or by more ':'-fields, with no ':' in p or u, splits into at least two fields, and the second is u |
| Command.UserId | command/command.go:196-198 | the user id is the second ':'-field and contains no ':'; for a sender `p:u` followed by nothing or by more ':'-fields, with no ':' in p or u, it is u |
| Command.ListUserRoles | command/command.go:196-199 | exactly one call, ListUserRoles(user id of the sender, false) |
| Command.ListingOutcome | command/command.go:61-76 | the fetch is the only call; a fetch error gives Fatal with its text and only then is the reply Fatal; a fetched list gives Success; for single-line values that text parses back to exactly the fetched values |
| Command.EmptyListing | command/command.go:70-75 | for any header ("Keys:\n", "Types:\n"), an empty fetched list gives Success of the header alone inside the fence |
| Command.RoleKeys | command/command.go:61-76 | the loop-built reply of `roleKeys` equals the listing outcome for the keys fetch under "Keys:\n" |
| Command.RoleTypes | command/command.go:78-93 | the loop-built reply of `roleTypes` equals the listing outcome for the types fetch under "Types:\n" |
| Command.Registry | command/command.go:40-51 | exactly nine subcommands are registered (list, create, destroy, info, keys, sync, set, list_members, list_roles), and none of them runs `roleTypes`; exactly create, destroy and set run a permission-checking handler, and exactly sync runs `syncRoles` |
| Command.Handle | command/command.go:95-199 | for every handler: a wrong argument count gives its usage error with no call, and every accepted count avoids it; a gated handler checks permission first; an ungated one never checks; for every handler but `sync`, every mutating call follows a true permission answer; at most one role-service call; a forwarded reply is the reply to the last call |
| Command.SyncUngated | command/command.go:167-169 | `sync` makes a mutating call, SyncRoles, with no permission check before it, whatever the permission service would answer |
| Command.UnroutedReply | command/command.go:55-57 | an error from the `args` library becomes an error reply carrying its text, and only an error does; a reply the library wrote itself is passed on unchanged |
| Command.Exec | command/command.go:39-59 | for an unregistered or missing subcommand (including "types") no handler runs and no collaborator is called, and a library error becomes an error reply with its text; a registered one gives its handler's outcome; for every subcommand but sync, every mutating call follows a true permission answer; Exec's own error result is always nil |

## Left out

- main.go: process bootstrap, service registration and the client factory are plumbing.
- `NewCommand` and the package globals it sets (command/command.go:23-25, 201-211): the permission oracle and role client are parameters (`Env`) instead.
- `Command.Help` (command/command.go:33-37): it only copies constant metadata into the response.
- The role-service and permission-service internals (`AddRole`, `RemoveRole`, `SyncRoles`, `ListRoles`, `GetMembers`, `ListUserRoles`, `Set`, `RoleInfo`, `CanPerform`): they are foreign, so their replies are modelled as `Forwarded(call)` and the permission answer as an input.
- The `args` library's parsing, help output and error texts: only the lookup of args[1] in the registry and the conversion of its error to an error reply are modelled.
- Command.Exec: does not model what the `args` library does for `help` or for a request with no subcommand; that reply, or its error, is an input (`Env.unrouted`).
- The exact prefixes added by `SendError`, `SendFatal` and `SendSuccess`, and the definition of `IsDiscordUser`: they are foreign, so the model uses reply tags and a function parameter.
- Context, logging, and the RPC request and response messages: they carry no decisions.
- Go strings are byte strings: the model uses `seq<char>`, which does not change any decision here.
- Command.ListUserRoles: requires a ':' in the sender, because the source indexes the second field without a check and panics otherwise; that panic is not modelled.
