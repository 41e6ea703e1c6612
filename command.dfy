/**
 * The decision layer of the role command (command/command.go): a registry of
 * subcommands, and one handler per subcommand. Some handlers check their
 * argument count; `create`, `destroy` and `set` ask the permission service
 * before their `AddRole`, `RemoveRole` or `Set` call; and each handler makes
 * at most one call to the role service, whose reply it passes on.
 *
 * An invocation's arguments include the command prefix (args[0], "!role")
 * and the subcommand name (args[1]); the handlers' argument counts are of the
 * whole sequence, as in the source.
 */
module Command {
  import opened Wrappers
  import Strings
  import Listing
  import Remote

  /** An `ExecRequest`: the caller identity (`<platform>:<user-id>`) and the tokens. */
  datatype Request = Request(sender: string, args: seq<string>)

  /** What the permission check answered for this invocation. */
  datatype PermResult = PermErr(msg: string) | PermAnswer(allowed: bool)

  /**
   * What the `args` library does with a subcommand that is not registered
   * (including a missing one): return an error, or write a reply of its own.
   */
  datatype LibraryResult = LibraryErr(msg: string) | LibraryReply(text: string)

  /** What a fetch of role keys or role types returned. */
  datatype Fetch = FetchErr(msg: string) | Fetched(values: seq<string>)

  /**
   * The handler's reply string, by the wrapper that made it: `SendSuccess`,
   * `SendError` or `SendFatal` around a message, the string that the role
   * service returned for `call`, passed on unchanged, or a reply the `args`
   * library wrote itself.
   */
  datatype Reply = Success(text: string) | Error(text: string) | Fatal(text: string)
                 | Forwarded(call: Remote.Call) | Library(text: string)

  /** A handler's reply together with the collaborator calls it made, in order. */
  datatype Outcome = Outcome(reply: Reply, trace: seq<Remote.Call>)

  /**
   * Everything the handlers learn from outside: the permission service's
   * answer, the `IsDiscordUser` test of services-common, the results of the
   * key and type fetches, and what the `args` library does with a
   * subcommand it finds no handler for.
   */
  datatype Env = Env(perm: PermResult, isDiscordUser: string -> bool,
                     keys: Fetch, types: Fetch, unrouted: LibraryResult)

  const CreateUsage := "Usage: !role create <role_name> <filter> <role_description>"
  const DestroyUsage := "Usage: !role destroy <role_name>"
  const InfoUsage := "Usage: !role info <role_name>"
  const SetUsage := "Usage: !role set <role_name> <key> <value>"
  const ListMembersUsage := "Usage: !role list_members <sig_name>"
  const NoPermission := "User doesn't have permission to this command"
  const DiscordUserRole := "Discord users may not be roles"
  const DiscordUserDescription := "Discord users may not be descriptions"
  const KeysHeader := "Keys:\n"
  const TypesHeader := "Types:\n"

  // ---------------------------------------------------------------------
  // Properties every handler keeps

  /** Every mutating call comes after a permission check that answered true. */
  predicate MutationsAuthorized(req: Request, env: Env, trace: seq<Remote.Call>)
  {
    forall i | 0 <= i < |trace| && Remote.IsMutation(trace[i]) ::
      env.perm == PermAnswer(true) && Remote.CanPerform(req.sender) in trace[..i]
  }

  /** At most one role-service call is made. */
  predicate AtMostOneRoleCall(trace: seq<Remote.Call>)
  {
    forall i, j | 0 <= i < j < |trace| :: trace[i].CanPerform? || trace[j].CanPerform?
  }

  /** A forwarded reply is the reply to the last call made. */
  predicate ForwardsLastCall(o: Outcome)
  {
    o.reply.Forwarded? ==> |o.trace| > 0 && o.trace[|o.trace| - 1] == o.reply.call
  }

  // ---------------------------------------------------------------------
  // The permission gate shared by create, destroy and set

  /**
   * Asks the permission service for `sender`; on an error replies Fatal with
   * its text, on a refusal replies with the permission error, and otherwise
   * continues with `permitted`.
   */
  function Gate(sender: string, perm: PermResult, permitted: Outcome): (o: Outcome)
    ensures |o.trace| >= 1 && o.trace[0] == Remote.CanPerform(sender)
    ensures perm.PermErr? ==> o == Outcome(Fatal(perm.msg), [Remote.CanPerform(sender)])
    ensures perm == PermAnswer(false) ==> o == Outcome(Error(NoPermission), [Remote.CanPerform(sender)])
    ensures perm == PermAnswer(true) ==> o.reply == permitted.reply && o.trace[1..] == permitted.trace
  {
    match perm
    case PermErr(msg) => Outcome(Fatal(msg), [Remote.CanPerform(sender)])
    case PermAnswer(allowed) =>
      if !allowed then Outcome(Error(NoPermission), [Remote.CanPerform(sender)])
      else Outcome(permitted.reply, [Remote.CanPerform(sender)] + permitted.trace)
  }

  /** Replies with what the role service returns for `c`, having made only that call. */
  function Delegate(c: Remote.Call): Outcome
  {
    Outcome(Forwarded(c), [c])
  }

  // ---------------------------------------------------------------------
  // The handlers

  /** The role description of `create`: the tokens from args[4] on, joined by spaces. */
  function Description(args: seq<string>): string
    requires |args| >= 5
  {
    Strings.Join(args[4..], " ")
  }

  /** The description keeps its words: splitting it on spaces gives the tokens back. */
  lemma DescriptionWords(args: seq<string>)
    requires |args| >= 5
    requires forall i | 4 <= i < |args| :: ' ' !in args[i]
    ensures Strings.Split(Description(args), ' ') == args[4..]
  {
    Strings.SplitJoin(args[4..], ' ');
  }

  /** The call `create` makes once every check has passed. */
  function AddRoleCall(req: Request): Remote.Call
    requires |req.args| >= 5
  {
    Remote.AddRole(req.sender, req.args[2], "discord", req.args[3], "wildcard",
                   false, Description(req.args), false)
  }

  /** `create`: the part after the permission check. */
  function AddRolePermitted(req: Request, env: Env): Outcome
    requires |req.args| >= 5
  {
    if env.isDiscordUser(req.args[2]) then Outcome(Error(DiscordUserRole), [])
    else if env.isDiscordUser(Description(req.args)) then Outcome(Error(DiscordUserDescription), [])
    else Delegate(AddRoleCall(req))
  }

  /** `addRole`. */
  function AddRole(req: Request, env: Env): (o: Outcome)
    ensures |req.args| < 5 <==> o == Outcome(Error(CreateUsage), [])
    ensures |req.args| >= 5 ==> |o.trace| >= 1 && o.trace[0] == Remote.CanPerform(req.sender)
    ensures |req.args| >= 5 && env.perm.PermErr? ==>
              o == Outcome(Fatal(env.perm.msg), [Remote.CanPerform(req.sender)])
    ensures |req.args| >= 5 && env.perm == PermAnswer(false) ==>
              o == Outcome(Error(NoPermission), [Remote.CanPerform(req.sender)])
    ensures |req.args| >= 5 && env.perm == PermAnswer(true) && env.isDiscordUser(req.args[2]) ==>
              o == Outcome(Error(DiscordUserRole), [Remote.CanPerform(req.sender)])
    ensures |req.args| >= 5 && env.perm == PermAnswer(true) && !env.isDiscordUser(req.args[2])
              && env.isDiscordUser(Description(req.args)) ==>
              o == Outcome(Error(DiscordUserDescription), [Remote.CanPerform(req.sender)])
    ensures !o.reply.Forwarded? ==> forall i | 0 <= i < |o.trace| :: !Remote.IsMutation(o.trace[i])
    ensures o.reply.Forwarded? <==>
              |req.args| >= 5 && env.perm == PermAnswer(true) && !env.isDiscordUser(req.args[2])
              && !env.isDiscordUser(Description(req.args))
    ensures o.reply.Forwarded? ==>
              |req.args| >= 5 && o.trace == [Remote.CanPerform(req.sender), o.reply.call]
              && o.reply.call == Remote.AddRole(req.sender, req.args[2], "discord", req.args[3],
                                                 "wildcard", false, Description(req.args), false)
  {
    if |req.args| < 5 then Outcome(Error(CreateUsage), [])
    else Gate(req.sender, env.perm, AddRolePermitted(req, env))
  }

  /** `listRoles`. */
  function ListRoles(req: Request): (o: Outcome)
    ensures |o.trace| == 1 && o.trace[0].ListRoles? && o.reply == Forwarded(o.trace[0])
    ensures o.trace[0].all <==> |req.args| == 3 && req.args[2] == "all"
    ensures !o.trace[0].sig
  {
    var all := |req.args| == 3 && req.args[2] == "all";
    Delegate(Remote.ListRoles(all, false))
  }

  /** `removeRole`. */
  function RemoveRole(req: Request, env: Env): (o: Outcome)
    ensures |req.args| != 3 <==> o == Outcome(Error(DestroyUsage), [])
    ensures |req.args| == 3 ==> |o.trace| >= 1 && o.trace[0] == Remote.CanPerform(req.sender)
    ensures |req.args| == 3 && env.perm.PermErr? ==>
              o == Outcome(Fatal(env.perm.msg), [Remote.CanPerform(req.sender)])
    ensures |req.args| == 3 && env.perm == PermAnswer(false) ==>
              o == Outcome(Error(NoPermission), [Remote.CanPerform(req.sender)])
    ensures |req.args| == 3 && env.perm == PermAnswer(true) ==>
              o.trace == [Remote.CanPerform(req.sender), Remote.RemoveRole(req.sender, req.args[2], false)]
              && o.reply == Forwarded(o.trace[1])
  {
    if |req.args| != 3 then Outcome(Error(DestroyUsage), [])
    else Gate(req.sender, env.perm, Delegate(Remote.RemoveRole(req.sender, req.args[2], false)))
  }

  /** `roleInfo`: no permission check. */
  function RoleInfo(req: Request): (o: Outcome)
    ensures |req.args| != 3 <==> o == Outcome(Error(InfoUsage), [])
    ensures |req.args| == 3 ==>
              o.trace == [Remote.RoleInfo(req.sender, req.args[2], false)] && o.reply == Forwarded(o.trace[0])
  {
    if |req.args| != 3 then Outcome(Error(InfoUsage), [])
    else Delegate(Remote.RoleInfo(req.sender, req.args[2], false))
  }

  /** `syncRoles`: no argument or permission check of its own. */
  function SyncRoles(req: Request): (o: Outcome)
    ensures o.trace == [Remote.SyncRoles(req.sender)] && o.reply == Forwarded(o.trace[0])
  {
    Delegate(Remote.SyncRoles(req.sender))
  }

  /** `setRoles`. */
  function SetRoles(req: Request, env: Env): (o: Outcome)
    ensures |req.args| != 5 <==> o == Outcome(Error(SetUsage), [])
    ensures |req.args| == 5 ==> |o.trace| >= 1 && o.trace[0] == Remote.CanPerform(req.sender)
    ensures |req.args| == 5 && env.perm.PermErr? ==>
              o == Outcome(Fatal(env.perm.msg), [Remote.CanPerform(req.sender)])
    ensures |req.args| == 5 && env.perm == PermAnswer(false) ==>
              o == Outcome(Error(NoPermission), [Remote.CanPerform(req.sender)])
    ensures |req.args| == 5 && env.perm == PermAnswer(true) ==>
              o.trace == [Remote.CanPerform(req.sender),
                          Remote.Set(req.sender, req.args[2], req.args[3], req.args[4])]
              && o.reply == Forwarded(o.trace[1])
  {
    if |req.args| != 5 then Outcome(Error(SetUsage), [])
    else Gate(req.sender, env.perm, Delegate(Remote.Set(req.sender, req.args[2], req.args[3], req.args[4])))
  }

  /** `getMembers`: no permission check. */
  function GetMembers(req: Request): (o: Outcome)
    ensures |req.args| != 3 <==> o == Outcome(Error(ListMembersUsage), [])
    ensures |req.args| == 3 ==>
              o.trace == [Remote.GetMembers(req.args[2])] && o.reply == Forwarded(o.trace[0])
  {
    if |req.args| != 3 then Outcome(Error(ListMembersUsage), [])
    else Delegate(Remote.GetMembers(req.args[2]))
  }

  /**
   * `sender` is `p:u` followed by nothing or by further ':'-fields, with no
   * ':' in the platform `p` or the user id `u`.
   */
  predicate SecondFieldIs(sender: string, p: string, u: string, t: string)
  {
    sender == p + ":" + u + t && ':' !in p && ':' !in u && (t == [] || t[0] == ':')
  }

  /** Whatever follows the second field, splitting `p:u...` yields u as the second field. */
  lemma SecondField(p: string, u: string, t: string)
    requires ':' !in p && ':' !in u && (t == [] || t[0] == ':')
    ensures |Strings.Split(p + ":" + u + t, ':')| >= 2
    ensures Strings.Split(p + ":" + u + t, ':')[1] == u
  {
    var rest := u + t;
    assert p + ":" + u + t == p + [':'] + rest;
    Strings.SplitAfterPiece(p, ':', rest);
    Strings.FirstPiece(u, ':', t);
  }

  /** The user id of a `<platform>:<user-id>` sender: the second ":"-separated field. */
  function UserId(sender: string): (id: string)
    requires ':' in sender
    ensures ':' !in id
    ensures forall p, u, t | SecondFieldIs(sender, p, u, t) :: id == u
  {
    var fields := Strings.Split(sender, ':');
    forall p, u, t | SecondFieldIs(sender, p, u, t)
      ensures fields[1] == u
    {
      SecondField(p, u, t);
    }
    fields[1]
  }

  /**
   * `listUserRoles`. The source indexes the second field of the split sender
   * without a check, so a sender without ':' is outside what it handles.
   */
  function ListUserRoles(req: Request): (o: Outcome)
    requires ':' in req.sender
    ensures o.trace == [Remote.ListUserRoles(UserId(req.sender), false)] && o.reply == Forwarded(o.trace[0])
  {
    Delegate(Remote.ListUserRoles(UserId(req.sender), false))
  }

  // ---------------------------------------------------------------------
  // The listings: roleKeys and roleTypes

  /** What a listing handler replies, given what its fetch returned. */
  function ListingOutcome(fetchCall: Remote.Call, header: string, fetch: Fetch): (o: Outcome)
    ensures o.trace == [fetchCall]
    ensures fetch.FetchErr? <==> o.reply.Fatal?
    ensures fetch.FetchErr? ==> o.reply == Fatal(fetch.msg)
    ensures fetch.Fetched? ==> o.reply.Success?
    ensures fetch.Fetched? && Listing.SingleLine(fetch.values) ==>
              Listing.ParseRendered(header, o.reply.text) == Some(fetch.values)
  {
    match fetch
    case FetchErr(msg) => Outcome(Fatal(msg), [fetchCall])
    case Fetched(values) =>
      var text := Listing.Render(header, values);
      if Listing.SingleLine(values) then
        Listing.ParseRender(header, values);
        Outcome(Success(text), [fetchCall])
      else
        Outcome(Success(text), [fetchCall])
  }

  /** `roleKeys`. */
  method RoleKeys(fetch: Fetch) returns (o: Outcome)
    ensures o == ListingOutcome(Remote.GetRoleKeys, KeysHeader, fetch)
  {
    match fetch
    case FetchErr(msg) =>
      o := Outcome(Fatal(msg), [Remote.GetRoleKeys]);
    case Fetched(values) =>
      var body := Listing.BuildBody(KeysHeader, values);
      o := Outcome(Success(Listing.Fence(body)), [Remote.GetRoleKeys]);
  }

  /** `roleTypes`: defined in the source but not registered. */
  method RoleTypes(fetch: Fetch) returns (o: Outcome)
    ensures o == ListingOutcome(Remote.GetRoleTypes, TypesHeader, fetch)
  {
    match fetch
    case FetchErr(msg) =>
      o := Outcome(Fatal(msg), [Remote.GetRoleTypes]);
    case Fetched(values) =>
      var body := Listing.BuildBody(TypesHeader, values);
      o := Outcome(Success(Listing.Fence(body)), [Remote.GetRoleTypes]);
  }

  // ---------------------------------------------------------------------
  // Registry and dispatch

  datatype Handler =
    | ListRolesCmd | AddRoleCmd | RemoveRoleCmd | RoleInfoCmd | RoleKeysCmd | RoleTypesCmd
    | SyncRolesCmd | SetRolesCmd | GetMembersCmd | ListUserRolesCmd

  /** A registry entry, as `args.Command` holds it: the handler and its help text. */
  datatype Entry = Entry(handler: Handler, help: string)

  /** The handlers that consult the permission service. */
  predicate Gated(h: Handler)
  {
    h == AddRoleCmd || h == RemoveRoleCmd || h == SetRolesCmd
  }

  /** Whether `n` tokens are an argument count the handler accepts. */
  predicate ArityOk(h: Handler, n: nat)
  {
    match h
    case AddRoleCmd => n >= 5
    case RemoveRoleCmd | RoleInfoCmd | GetMembersCmd => n == 3
    case SetRolesCmd => n == 5
    case _ => true
  }

  /** The usage message of a handler that checks its argument count. */
  function Usage(h: Handler): string
  {
    match h
    case AddRoleCmd => CreateUsage
    case RemoveRoleCmd => DestroyUsage
    case RoleInfoCmd => InfoUsage
    case SetRolesCmd => SetUsage
    case GetMembersCmd => ListMembersUsage
    case _ => ""
  }

  /** The subcommands `Exec` registers, with their help texts. */
  function Registry(): (r: map<string, Entry>)
    ensures r.Keys == {"list", "create", "destroy", "info", "keys", "sync", "set",
                       "list_members", "list_roles"}
    ensures forall name | name in r :: r[name].handler != RoleTypesCmd
    ensures forall name | name in r ::
              Gated(r[name].handler) <==> (name == "create" || name == "destroy" || name == "set")
    ensures forall name | name in r :: r[name].handler == SyncRolesCmd <==> name == "sync"
  {
    var r := map[
      "list" := Entry(ListRolesCmd, "List all Roles"),
      "create" := Entry(AddRoleCmd, "Add Role"),
      "destroy" := Entry(RemoveRoleCmd, "Delete role"),
      "info" := Entry(RoleInfoCmd, "Get Role Info"),
      "keys" := Entry(RoleKeysCmd, "Get valid role keys"),
      "sync" := Entry(SyncRolesCmd, "Sync Roles to chat service"),
      "set" := Entry(SetRolesCmd, "Set role key"),
      "list_members" := Entry(GetMembersCmd, "List Role members"),
      "list_roles" := Entry(ListUserRolesCmd, "List user Roles")
    ];
    assert r["list"].handler == ListRolesCmd && r["create"].handler == AddRoleCmd;
    assert r["destroy"].handler == RemoveRoleCmd && r["info"].handler == RoleInfoCmd;
    assert r["keys"].handler == RoleKeysCmd && r["sync"].handler == SyncRolesCmd;
    assert r["set"].handler == SetRolesCmd && r["list_members"].handler == GetMembersCmd;
    assert r["list_roles"].handler == ListUserRolesCmd;
    r
  }

  /** What running handler `h` on `req` comes to. */
  function Handle(h: Handler, req: Request, env: Env): (o: Outcome)
    requires h == ListUserRolesCmd ==> ':' in req.sender
    ensures !ArityOk(h, |req.args|) <==> o == Outcome(Error(Usage(h)), [])
    ensures Gated(h) && ArityOk(h, |req.args|) ==> |o.trace| >= 1 && o.trace[0] == Remote.CanPerform(req.sender)
    ensures !Gated(h) ==> forall i | 0 <= i < |o.trace| :: !o.trace[i].CanPerform?
    ensures h != SyncRolesCmd ==> MutationsAuthorized(req, env, o.trace)
    ensures AtMostOneRoleCall(o.trace)
    ensures ForwardsLastCall(o)
  {
    match h
    case ListRolesCmd => ListRoles(req)
    case AddRoleCmd => AddRole(req, env)
    case RemoveRoleCmd => RemoveRole(req, env)
    case RoleInfoCmd => RoleInfo(req)
    case RoleKeysCmd => ListingOutcome(Remote.GetRoleKeys, KeysHeader, env.keys)
    case RoleTypesCmd => ListingOutcome(Remote.GetRoleTypes, TypesHeader, env.types)
    case SyncRolesCmd => SyncRoles(req)
    case SetRolesCmd => SetRoles(req, env)
    case GetMembersCmd => GetMembers(req)
    case ListUserRolesCmd => ListUserRoles(req)
  }

  /** The reply for an unregistered subcommand: a library error becomes an error reply. */
  function UnroutedReply(r: LibraryResult): (reply: Reply)
    ensures r.LibraryErr? <==> reply.Error?
    ensures r.LibraryErr? ==> reply.text == r.msg
    ensures r.LibraryReply? ==> reply == Library(r.text)
  {
    match r
    case LibraryErr(msg) => Error(msg)
    case LibraryReply(text) => Library(text)
  }

  /**
   * `sync` is the exception to the permission rule: it asks the role service
   * to reconcile, which can create roles, and this layer checks no permission
   * first, whatever the permission service would have answered.
   */
  lemma SyncUngated(req: Request, env: Env)
    ensures !MutationsAuthorized(req, env, Handle(SyncRolesCmd, req, env).trace)
  {
    var trace := Handle(SyncRolesCmd, req, env).trace;
    assert Remote.IsMutation(trace[0]) && trace[..0] == [];
  }

  /** An empty listing is the header alone inside the fence, not a separate message. */
  lemma EmptyListing(fetchCall: Remote.Call, header: string)
    ensures ListingOutcome(fetchCall, header, Fetched([])).reply == Success(Listing.Fence(header))
  {
    assert Listing.Lines([]) == "";
  }

  /**
   * `Command.Exec`: looks the subcommand (args[1]) up in the registry and
   * runs its handler. Otherwise no handler runs and no collaborator is
   * called; an error from the `args` library becomes its text wrapped by
   * `SendError`. The method itself never fails.
   */
  method Exec(req: Request, env: Env) returns (o: Outcome, err: Option<string>)
    requires |req.args| >= 2 && req.args[1] == "list_roles" ==> ':' in req.sender
    ensures err == None
    ensures (|req.args| < 2 || req.args[1] !in Registry()) ==>
              o.trace == [] && o.reply == UnroutedReply(env.unrouted)
    ensures |req.args| >= 2 && req.args[1] in Registry() ==> o == Handle(Registry()[req.args[1]].handler, req, env)
    ensures (|req.args| < 2 || req.args[1] != "sync") ==> MutationsAuthorized(req, env, o.trace)
  {
    err := None;
    var registry := Registry();
    if |req.args| < 2 || req.args[1] !in registry {
      o := Outcome(UnroutedReply(env.unrouted), []);
      return;
    }
    var h := registry[req.args[1]].handler;
    if h == RoleKeysCmd {
      o := RoleKeys(env.keys);
    } else {
      o := Handle(h, req, env);
    }
  }
}
