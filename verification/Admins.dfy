/**
 Administrators and the guard on the last active super-admin, in its two implementations:
 the Go service collects assignments and tests the role it loaded, the Python service
 assigns as it goes and tests the role it has just flushed. Requests are served one at a
 time.
 */
module Admins {
  import opened Options

  datatype Role = Editor | Manager | SuperAdmin

  /** A row; `password` stands for the password whose hash is stored, `disabled` for a set `disabled_at`. */
  datatype Admin = Admin(username: string, password: string, role: Role, tg: Option<int>, disabled: bool)

  type Table = map<nat, Admin>

  /** A key of a JSON body: not sent, null, of the wrong type or out of range, or a value. */
  datatype Field<+T> = Absent | Null | Bad | Given(value: T)

  datatype Patch = Patch(password: Field<string>, role: Field<Role>, disabled: Field<bool>, tg: Field<int>)

  /** The HTTP status and the table afterwards. */
  datatype Reply = Reply(status: nat, table: Table)

  const OK := 200
  const CREATED := 201
  const REFUSED := 400
  const MISSING := 404
  const CONFLICT := 409
  const INVALID := 422
  const FAILED := 500

  predicate Active(a: Admin) {
    a.role == SuperAdmin && !a.disabled
  }

  function ActiveIds(t: Table): set<nat> {
    set id | id in t && Active(t[id])
  }

  /** `countActiveSuperAdmins`. */
  function ActiveCount(t: Table): nat {
    |ActiveIds(t)|
  }

  /** The unique index on `tg_user_id`. */
  predicate TgTaken(t: Table, id: nat, tg: Option<int>) {
    tg.Some? && exists other :: other in t && other != id && t[other].tg == tg
  }

  predicate UsernameTaken(t: Table, username: string) {
    exists other :: other in t && t[other].username == username
  }

  // ---- What a patch asks for ----

  /** The row with every given field overwritten; a null Telegram id clears it, other nulls change nothing. */
  function Applied(a: Admin, p: Patch): Admin {
    Admin(a.username,
          if p.password.Given? then p.password.value else a.password,
          if p.role.Given? then p.role.value else a.role,
          if p.tg.Given? then Some(p.tg.value) else if p.tg.Null? then None else a.tg,
          if p.disabled.Given? then p.disabled.value else a.disabled)
  }

  predicate Demotes(a: Admin, p: Patch) {
    p.role.Given? && a.role == SuperAdmin && p.role.value != SuperAdmin
  }

  predicate Disables(a: Admin, p: Patch) {
    p.disabled == Given(true) && a.role == SuperAdmin && !a.disabled
  }

  function Stored(t: Table, id: nat, p: Patch): Reply
    requires id in t
  {
    var a := Applied(t[id], p);
    if !p.tg.Absent? && TgTaken(t, id, a.tg) then Reply(FAILED, t) else Reply(OK, t[id := a])
  }

  /** What the Go handler decides before it writes; every guard looks at the row as loaded. */
  function GoVerdict(t: Table, a: Admin, p: Patch): nat {
    if p.password.Bad? || p.role.Bad? then INVALID
    else if Demotes(a, p) && ActiveCount(t) <= 1 then REFUSED
    else if p.disabled.Bad? then INVALID
    else if Disables(a, p) && ActiveCount(t) <= 1 then REFUSED
    else if p.tg.Bad? then INVALID
    else OK
  }

  /** `handleUpdateAdmin`. */
  function GoUpdate(t: Table, id: nat, p: Patch): Reply {
    if id !in t then Reply(MISSING, t)
    else if GoVerdict(t, t[id], p) != OK then Reply(GoVerdict(t, t[id], p), t)
    else Stored(t, id, p)
  }

  /** A password the Python schema takes. */
  predicate FitPassword(p: Patch) {
    p.password.Given? ==> 8 <= |p.password.value| <= 128
  }

  predicate WellFormed(p: Patch) {
    !p.password.Bad? && FitPassword(p) && !p.role.Bad? && !p.disabled.Bad? && !p.tg.Bad?
  }

  /** `update_admin`: the second guard looks at the row with its password and role already flushed. */
  function PyUpdate(t: Table, id: nat, p: Patch): Reply {
    if !WellFormed(p) then Reply(INVALID, t)
    else if id !in t then Reply(MISSING, t)
    else if Demotes(t[id], p) && ActiveCount(t) <= 1 then Reply(REFUSED, t)
    else
      var flushed := Applied(t[id], p.(disabled := Absent, tg := Absent));
      if Disables(flushed, p) && ActiveCount(t[id := flushed]) <= 1 then Reply(REFUSED, t)
      else Stored(t, id, p)
  }

  /** The bytes of the UTF-8 form, which is what Go's `len` counts. */
  function Utf8Length(s: string): nat {
    if s == [] then 0 else Utf8Length(s[..|s| - 1]) + Utf8Width(s[|s| - 1] as int)
  }

  function Utf8Width(code: int): nat {
    if code < 0x80 then 1 else if code < 0x800 then 2 else if code < 0x1_0000 then 3 else 4
  }

  /** `handleCreateAdmin`; a role that is null counts as not sent, and the database draws `id`. */
  function Create(t: Table, id: nat, username: string, password: string, role: Field<Role>, tg: Option<int>): Reply {
    if Utf8Length(username) < 3 || Utf8Length(password) < 8 || role.Bad? then Reply(INVALID, t)
    else
      var a := Admin(username, password, if role.Given? then role.value else Editor, tg, false);
      if id in t || UsernameTaken(t, username) || TgTaken(t, id, tg) then Reply(CONFLICT, t)
      else Reply(CREATED, t[id := a])
  }

  // ---- The handlers ----

  datatype Assignment =
    | SetPassword(password: string) | SetRole(role: Role) | SetDisabled(disabled: bool) | SetTg(tg: Option<int>)

  function Assign(a: Admin, s: Assignment): Admin {
    match s
    case SetPassword(pw) => a.(password := pw)
    case SetRole(role) => a.(role := role)
    case SetDisabled(disabled) => a.(disabled := disabled)
    case SetTg(tg) => a.(tg := tg)
  }

  function AssignAll(a: Admin, sets: seq<Assignment>): Admin {
    if sets == [] then a else Assign(AssignAll(a, sets[..|sets| - 1]), sets[|sets| - 1])
  }

  lemma AssignNone(a: Admin)
    ensures AssignAll(a, []) == a
  {
  }

  lemma AssignMore(a: Admin, sets: seq<Assignment>, s: Assignment)
    ensures AssignAll(a, sets + [s]) == Assign(AssignAll(a, sets), s)
  {
    assert (sets + [s])[..|sets|] == sets;
  }

  class Store {
    var admins: Table

    constructor (admins: Table)
      ensures this.admins == admins
    {
      this.admins := admins;
    }

    method HandleUpdateGo(id: nat, p: Patch) returns (status: nat)
      modifies this
      ensures Reply(status, admins) == GoUpdate(old(admins), id, p)
    {
      if id !in admins {
        return MISSING;
      }
      var adm := admins[id];
      var built, sets := Collect(adm, p);
      if built != OK {
        return built;
      }
      if sets == [] {
        assert admins == admins[id := adm];
        return OK;
      }
      var updated := AssignAll(adm, sets);
      if !p.tg.Absent? && TgTaken(admins, id, updated.tg) {
        return FAILED;
      }
      admins := admins[id := updated];
      return OK;
    }

    /** The assignments the patch leads to, gathered key by key, or the status that ends the request. */
    method Collect(adm: Admin, p: Patch) returns (status: nat, sets: seq<Assignment>)
      ensures status == GoVerdict(admins, adm, p)
      ensures status == OK ==> AssignAll(adm, sets) == Applied(adm, p) && (sets == [] ==> p.tg.Absent?)
    {
      hide AssignAll;
      status, sets := OK, [];
      AssignNone(adm);
      if p.password.Bad? {
        return INVALID, sets;
      }
      if p.password.Given? {
        AssignMore(adm, sets, SetPassword(p.password.value));
        sets := sets + [SetPassword(p.password.value)];
      }
      if p.role.Bad? {
        return INVALID, sets;
      }
      if p.role.Given? && p.role.value != adm.role {
        if adm.role == SuperAdmin && p.role.value != SuperAdmin {
          var n := ActiveCount(admins);
          if n <= 1 {
            return REFUSED, sets;
          }
        }
        AssignMore(adm, sets, SetRole(p.role.value));
        sets := sets + [SetRole(p.role.value)];
      }
      if p.disabled.Bad? {
        return INVALID, sets;
      }
      if p.disabled.Given? {
        if p.disabled.value && adm.role == SuperAdmin && !adm.disabled {
          var n := ActiveCount(admins);
          if n <= 1 {
            return REFUSED, sets;
          }
        }
        AssignMore(adm, sets, SetDisabled(p.disabled.value));
        sets := sets + [SetDisabled(p.disabled.value)];
      }
      if p.tg.Bad? {
        return INVALID, sets;
      }
      if !p.tg.Absent? {
        var tg := if p.tg.Given? then Some(p.tg.value) else None;
        AssignMore(adm, sets, SetTg(tg));
        sets := sets + [SetTg(tg)];
      }
    }

    method HandleCreate(id: nat, username: string, password: string, role: Field<Role>, tg: Option<int>)
      returns (status: nat)
      modifies this
      ensures Reply(status, admins) == Create(old(admins), id, username, password, role, tg)
    {
      if Utf8Length(username) < 3 || Utf8Length(password) < 8 {
        return INVALID;
      }
      var granted := Editor;
      if role.Bad? {
        return INVALID;
      }
      if role.Given? {
        granted := role.value;
      }
      if id in admins || UsernameTaken(admins, username) || TgTaken(admins, id, tg) {
        return CONFLICT;
      }
      admins := admins[id := Admin(username, password, granted, tg, false)];
      return CREATED;
    }

    /** The guard's query: autoflush writes the pending row first. */
    method FlushAndCount(id: nat, admin: Admin) returns (n: nat)
      modifies this
      ensures admins == old(admins)[id := admin] && n == ActiveCount(admins)
    {
      admins := admins[id := admin];
      n := ActiveCount(admins);
    }

    /** The password and role of the row, assigned in turn, with the query in between. */
    method AssignRole(id: nat, loaded: Admin, p: Patch) returns (status: nat, admin: Admin)
      requires WellFormed(p) && id in admins && admins[id] == loaded
      modifies this
      ensures status == if Demotes(loaded, p) && ActiveCount(old(admins)) <= 1 then REFUSED else OK
      ensures status == OK ==> admin == Applied(loaded, p.(disabled := Absent, tg := Absent))
      ensures id in admins && admins == old(admins)[id := admins[id]]
    {
      hide ActiveCount;
      admin := loaded;
      if p.password.Given? {
        admin := admin.(password := p.password.value);
      }
      if p.role.Given? && p.role.value != admin.role {
        if admin.role == SuperAdmin && p.role.value != SuperAdmin {
          FlushKeepsCount(admins, id, admin);
          var existing := FlushAndCount(id, admin);
          if existing <= 1 {
            return REFUSED, admin;
          }
        }
        admin := admin.(role := p.role.value);
      }
      return OK, admin;
    }

    /** `update_admin`: an exception rolls back what the queries flushed. */
    method UpdatePy(id: nat, p: Patch) returns (status: nat)
      modifies this
      ensures Reply(status, admins) == PyUpdate(old(admins), id, p)
    {
      hide ActiveCount;
      hide TgTaken;
      if !WellFormed(p) {
        return INVALID;
      }
      if id !in admins {
        return MISSING;
      }
      var committed := admins;
      var verdict, admin := AssignRole(id, admins[id], p);
      if verdict != OK {
        admins := committed;
        return verdict;
      }
      if p.disabled.Given? {
        if p.disabled.value && admin.role == SuperAdmin && !admin.disabled {
          var active := FlushAndCount(id, admin);
          assert admins == committed[id := admin];
          if active <= 1 {
            admins := committed;
            return REFUSED;
          }
        }
        admin := admin.(disabled := p.disabled.value);
      }
      if !p.tg.Absent? {
        admin := admin.(tg := if p.tg.Given? then Some(p.tg.value) else None);
      }
      assert admin == Applied(committed[id], p);
      if !p.tg.Absent? && TgTaken(committed, id, admin.tg) {
        admins := committed;
        return FAILED;
      }
      admins := admins[id := admin];
      assert admins == committed[id := admin];
      return OK;
    }
  }

  lemma FlushKeepsCount(t: Table, id: nat, a: Admin)
    requires id in t && Active(a) == Active(t[id])
    ensures ActiveCount(t[id := a]) == ActiveCount(t)
  {
    assert ActiveIds(t[id := a]) == ActiveIds(t);
  }

  // ---- One super-admin always remains ----

  /** Some super-admin is active. */
  predicate Guarded(t: Table) {
    exists id :: id in t && Active(t[id])
  }

  lemma CountsGuarded(t: Table)
    ensures Guarded(t) <==> ActiveCount(t) > 0
  {
    if Guarded(t) {
      var id :| id in t && Active(t[id]);
      assert id in ActiveIds(t);
    } else {
      assert ActiveIds(t) == {};
    }
  }

  /** Changing one row removes at most that row from the count. */
  lemma OneRow(t: Table, id: nat, a: Admin)
    requires id in t
    ensures ActiveCount(t[id := a]) == ActiveCount(t) + (if Active(a) then 1 else 0) - (if Active(t[id]) then 1 else 0)
  {
    var before, after := ActiveIds(t), ActiveIds(t[id := a]);
    assert after - {id} == before - {id};
    assert |before| == |before - {id}| + if id in before then 1 else 0;
    assert |after| == |after - {id}| + if id in after then 1 else 0;
  }

  lemma StoredKeeps(t: Table, id: nat, p: Patch)
    requires id in t && Guarded(t)
    requires ActiveCount(t) > 1 || !Active(t[id]) || Active(Applied(t[id], p))
    ensures Guarded(Stored(t, id, p).table)
  {
    OneRow(t, id, Applied(t[id], p));
    CountsGuarded(t);
    CountsGuarded(t[id := Applied(t[id], p)]);
  }

  datatype Request =
    | GoPatch(id: nat, patch: Patch)
    | PyPatch(id: nat, patch: Patch)
    | Post(id: nat, username: string, password: string, role: Field<Role>, tg: Option<int>)

  function Serve(t: Table, r: Request): Reply {
    match r
    case GoPatch(id, p) => GoUpdate(t, id, p)
    case PyPatch(id, p) => PyUpdate(t, id, p)
    case Post(id, username, password, role, tg) => Create(t, id, username, password, role, tg)
  }

  function ServeAll(t: Table, requests: seq<Request>): Table
    decreases |requests|
  {
    if requests == [] then t else ServeAll(Serve(t, requests[0]).table, requests[1..])
  }

  lemma ServeKeepsGuard(t: Table, r: Request)
    requires Guarded(t)
    ensures Guarded(Serve(t, r).table)
  {
    match r
    case GoPatch(id, p) =>
      if id in t && GoVerdict(t, t[id], p) == OK {
        StoredKeeps(t, id, p);
      }
    case PyPatch(id, p) =>
      if PyUpdate(t, id, p).status == OK {
        PyFlushedCount(t, id, p);
        StoredKeeps(t, id, p);
      }
    case Post(id, _, _, _, _) =>
      var kept :| kept in t && Active(t[kept]);
      assert kept in Serve(t, r).table && Active(Serve(t, r).table[kept]);
  }

  /** Where the second Python guard applies, flushing has added the row to the count or left it there. */
  lemma PyFlushedCount(t: Table, id: nat, p: Patch)
    requires id in t
    ensures var flushed := Applied(t[id], p.(disabled := Absent, tg := Absent));
      Disables(flushed, p) ==>
        ActiveCount(t[id := flushed]) == ActiveCount(t) + if Active(t[id]) then 0 else 1
  {
    OneRow(t, id, Applied(t[id], p.(disabled := Absent, tg := Absent)));
  }

  /** Starting with an active super-admin, every run of creations and patches, by either service, keeps one. */
  lemma {:induction false} SuperAdminRemains(t: Table, requests: seq<Request>)
    requires Guarded(t)
    ensures Guarded(ServeAll(t, requests))
    decreases |requests|
  {
    hide Serve;
    hide Guarded;
    if requests != [] {
      ServeKeepsGuard(t, requests[0]);
      SuperAdminRemains(Serve(t, requests[0]).table, requests[1..]);
    }
  }

  // ---- The two implementations ----

  /** The patch on which Go trusts the old role: it makes a plain row super-admin and disables it at once. */
  predicate PromotesDisabled(a: Admin, p: Patch) {
    a.role != SuperAdmin && !a.disabled && p.role == Given(SuperAdmin) && p.disabled == Given(true)
  }

  /** The services agree on a well-formed patch, unless no super-admin is active and it promotes and disables. */
  lemma ServicesAgreeExactly(t: Table, id: nat, p: Patch)
    requires WellFormed(p)
    ensures GoUpdate(t, id, p) == PyUpdate(t, id, p) <==> !(id in t && !Guarded(t) && PromotesDisabled(t[id], p))
  {
    CountsGuarded(t);
    if id in t {
      PyFlushedCount(t, id, p);
    }
  }

  /** So from any table with an active super-admin the two serve every run of well-formed patches alike. */
  lemma {:induction false} ServicesAgreeThroughout(t: Table, requests: seq<Request>, others: seq<Request>)
    requires Guarded(t) && |requests| == |others|
    requires forall i :: 0 <= i < |requests| ==> SameRequest(requests[i], others[i])
    ensures ServeAll(t, requests) == ServeAll(t, others)
    decreases |requests|
  {
    if requests != [] {
      assert SameRequest(requests[0], others[0]);
      if requests[0] != others[0] {
        ServicesAgreeExactly(t, requests[0].id, requests[0].patch);
      }
      ServeKeepsGuard(t, requests[0]);
      ServicesAgreeThroughout(Serve(t, requests[0]).table, requests[1..], others[1..]);
    }
  }

  /** The same request, or the same well-formed patch sent to the other service. */
  predicate SameRequest(a: Request, b: Request) {
    || a == b
    || (a.GoPatch? && b.PyPatch? && a.id == b.id && a.patch == b.patch && WellFormed(a.patch))
    || (a.PyPatch? && b.GoPatch? && a.id == b.id && a.patch == b.patch && WellFormed(a.patch))
  }

  // ---- What the guard refuses ----

  /** On an active super-admin a patch is refused exactly when storing it would leave no active one. */
  lemma GuardExact(t: Table, id: nat, p: Patch)
    requires WellFormed(p) && id in t && Active(t[id])
    ensures GoUpdate(t, id, p).status == 400 <==> !Guarded(t[id := Applied(t[id], p)])
  {
    CountsGuarded(t[id := Applied(t[id], p)]);
    OneRow(t, id, Applied(t[id], p));
    CountsGuarded(t);
  }

  /** On any other row it is refused exactly when it demotes a disabled super-admin and at most one is active. */
  lemma GuardElsewhere(t: Table, id: nat, p: Patch)
    requires WellFormed(p) && id in t && !Active(t[id])
    ensures GoUpdate(t, id, p).status == 400 <==> Demotes(t[id], p) && ActiveCount(t) <= 1
    ensures Guarded(t) ==> Guarded(t[id := Applied(t[id], p)])
  {
    if kept :| kept in t && Active(t[kept]) {
      assert Active(t[id := Applied(t[id], p)][kept]);
    }
  }

  /** A reply other than success changes nothing; success changes the one row, as the patch says. */
  lemma OnlyTheRow(t: Table, id: nat, p: Patch)
    ensures var r := GoUpdate(t, id, p);
            if r.status == OK then id in t && r.table == t[id := Applied(t[id], p)] else r.table == t
    ensures var r := PyUpdate(t, id, p);
            if r.status == OK then id in t && r.table == t[id := Applied(t[id], p)] else r.table == t
  {
  }

  // ---- What a request writes ----

  /** The enabled super-admins, from the columns. */
  function Supers(t: Table): set<nat> {
    set id | id in t && t[id].role == SuperAdmin && t[id].disabled == false
  }

  /**
   A creation either changes nothing, or adds one enabled row as asked, an editor unless
   the request gives a role; it adds a super-admin exactly when that role is asked for.
   */
  lemma CreateWrites(t: Table, id: nat, username: string, password: string, role: Field<Role>, tg: Option<int>)
    ensures var r := Create(t, id, username, password, role, tg);
            r.status == 422 <==> Utf8Length(username) < 3 || Utf8Length(password) < 8 || role.Bad?
    ensures var r := Create(t, id, username, password, role, tg);
            r.status == 201 <==>
              r.status != 422 && id !in t &&
              forall other :: other in t ==> t[other].username != username && (tg.Some? ==> t[other].tg != tg)
    ensures var r := Create(t, id, username, password, role, tg);
            if r.status == 201 then
              r.table == t[id := r.table[id]] && r.table[id].username == username && r.table[id].password == password &&
              r.table[id].tg == tg && r.table[id].disabled == false &&
              r.table[id].role == (match role case Given(asked) => asked case _ => Editor)
            else r.table == t && (r.status == 409 || r.status == 422)
    ensures var r := Create(t, id, username, password, role, tg);
            Supers(r.table) == if r.status == 201 && role == Given(SuperAdmin) then Supers(t) + {id} else Supers(t)
  {
    var r := Create(t, id, username, password, role, tg);
    assert forall other :: other in r.table && other != id ==> other in t && r.table[other] == t[other];
  }

  /** Lengths are counted in bytes: one for ASCII, and up to four for any other character. */
  lemma {:induction false} Utf8Lengths(s: string)
    ensures |s| <= Utf8Length(s) <= 4 * |s|
    ensures (forall i :: 0 <= i < |s| ==> s[i] as int < 128) <==> Utf8Length(s) == |s|
    ensures Utf8Length(s) == 2 * |s| <== forall i :: 0 <= i < |s| ==> 128 <= s[i] as int < 2048
    ensures Utf8Length(s) == 3 * |s| <== forall i :: 0 <= i < |s| ==> 2048 <= s[i] as int < 65536
    ensures Utf8Length(s) == 4 * |s| <== forall i :: 0 <= i < |s| ==> 65536 <= s[i] as int
  {
    if s != "" {
      Utf8Lengths(s[..|s| - 1]);
    }
  }

  /** No request asks for a super-admin or enables anybody. */
  predicate Modest(r: Request) {
    match r
    case GoPatch(_, p) => p.role != Given(SuperAdmin) && p.disabled != Given(false)
    case PyPatch(_, p) => p.role != Given(SuperAdmin) && p.disabled != Given(false)
    case Post(_, _, _, role, _) => role != Given(SuperAdmin)
  }

  lemma ServeAddsNoSuper(t: Table, r: Request)
    requires Modest(r)
    ensures Supers(Serve(t, r).table) <= Supers(t)
  {
    match r
    case GoPatch(id, p) => OnlyTheRow(t, id, p);
    case PyPatch(id, p) => OnlyTheRow(t, id, p);
    case Post(id, username, password, role, tg) => CreateWrites(t, id, username, password, role, tg);
  }

  /** Nobody becomes an active super-admin in a run of requests none of which asks for it or enables a row. */
  lemma {:induction false} NobodyRises(t: Table, requests: seq<Request>)
    requires forall i :: 0 <= i < |requests| ==> Modest(requests[i])
    ensures Supers(ServeAll(t, requests)) <= Supers(t)
    decreases |requests|
  {
    hide Serve;
    hide Supers;
    if requests != [] {
      ServeAddsNoSuper(t, requests[0]);
      NobodyRises(Serve(t, requests[0]).table, requests[1..]);
    }
  }

  /** A patch answered 200 leaves every other row, and writes the columns that were sent; only a null id clears. */
  lemma PatchWrites(t: Table, id: nat, p: Patch, python: bool)
    requires (if python then PyUpdate(t, id, p) else GoUpdate(t, id, p)).status == 200
    ensures var after := (if python then PyUpdate(t, id, p) else GoUpdate(t, id, p)).table;
            id in t && after.Keys == t.Keys &&
            (forall other :: other in t && other != id ==> after[other] == t[other]) &&
            after[id].username == t[id].username &&
            after[id].password == (match p.password case Given(v) => v case _ => t[id].password) &&
            after[id].role == (match p.role case Given(v) => v case _ => t[id].role) &&
            after[id].disabled == (match p.disabled case Given(v) => v case _ => t[id].disabled) &&
            after[id].tg == (match p.tg case Given(v) => Some(v) case Null => None case _ => t[id].tg)
  {
    OnlyTheRow(t, id, p);
  }

  /** The answers to a patch that is not refused by a guard. */
  lemma PatchStatuses(t: Table, id: nat, p: Patch)
    ensures GoUpdate(t, id, p).status == 404 <==> id !in t
    ensures GoUpdate(t, id, p).status == 422 ==> p.password.Bad? || p.role.Bad? || p.disabled.Bad? || p.tg.Bad?
    ensures GoUpdate(t, id, p).status == 200 ==> !p.password.Bad? && !p.role.Bad? && !p.disabled.Bad? && !p.tg.Bad?
    ensures GoUpdate(t, id, p).status in {200, 400, 404, 422, 500}
    ensures GoUpdate(t, id, p).status == 500 ==>
              p.tg.Given? && exists other :: other in t && other != id && t[other].tg == Some(p.tg.value)
    ensures GoUpdate(t, id, p).status == 200 && p.tg.Given? ==>
              forall other :: other in t && other != id ==> t[other].tg != Some(p.tg.value)
    ensures PyUpdate(t, id, p).status == 422 <==>
              p.password.Bad? || p.role.Bad? || p.disabled.Bad? || p.tg.Bad? ||
              (p.password.Given? && !(8 <= |p.password.value| <= 128))
    ensures PyUpdate(t, id, p).status in {200, 400, 404, 422, 500}
  {
  }

  /** Usernames and Telegram ids are unique. */
  predicate Unique(t: Table) {
    forall a, b :: a in t && b in t && a != b ==>
      t[a].username != t[b].username && (t[a].tg.Some? ==> t[a].tg != t[b].tg)
  }

  lemma RowKeepsUnique(t: Table, id: nat, a: Admin)
    requires Unique(t)
    requires forall other :: other in t && other != id ==>
      t[other].username != a.username && (a.tg.Some? ==> t[other].tg != a.tg)
    ensures Unique(t[id := a])
  {
  }

  lemma PatchKeepsUnique(t: Table, id: nat, p: Patch)
    requires Unique(t)
    ensures Unique(GoUpdate(t, id, p).table) && Unique(PyUpdate(t, id, p).table)
  {
    OnlyTheRow(t, id, p);
    if id in t && (p.tg.Absent? || !TgTaken(t, id, Applied(t[id], p).tg)) {
      RowKeepsUnique(t, id, Applied(t[id], p));
    }
    hide Unique;
    hide ActiveCount;
  }

  lemma ServeKeepsUnique(t: Table, r: Request)
    requires Unique(t)
    ensures Unique(Serve(t, r).table)
  {
    match r
    case GoPatch(id, p) => PatchKeepsUnique(t, id, p);
    case PyPatch(id, p) => PatchKeepsUnique(t, id, p);
    case Post(id, username, password, role, tg) =>
      CreateWrites(t, id, username, password, role, tg);
      if Serve(t, r).status == 201 { RowKeepsUnique(t, id, Serve(t, r).table[id]); }
  }

  /** Both stay unique over every run of requests. */
  lemma {:induction false} UniqueThroughout(t: Table, requests: seq<Request>)
    requires Unique(t)
    ensures Unique(ServeAll(t, requests))
    decreases |requests|
  {
    hide Serve;
    hide Unique;
    if requests != [] {
      ServeKeepsUnique(t, requests[0]);
      UniqueThroughout(Serve(t, requests[0]).table, requests[1..]);
    }
  }
}
