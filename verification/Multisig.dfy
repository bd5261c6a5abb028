/** eosio.msig as functions on its tables: proposals, approvals in two formats, and invalidations. */
module Multisig {
  import opened Base

  datatype Level = Level(actor: Name, permission: Name)

  datatype Approval = Approval(level: Level, time: nat)

  /** A packed transaction: its expiration in seconds, and everything else. */
  datatype Trx = Trx(expiration: nat, body: seq<nat>)

  /** A row of the current approvals table. The time of a requested entry means nothing. */
  datatype Ballot = Ballot(requested: seq<Approval>, provided: seq<Approval>)

  /** A row of the old approvals table, which no action creates any more. */
  datatype OldBallot = OldBallot(requested: seq<Level>, provided: seq<Level>)

  /** A proposal is found by its proposer and its name. */
  datatype Key = Key(proposer: Name, name: Name)

  datatype Tables = Tables(
    proposals: map<Key, Trx>,
    approvals: map<Key, Ballot>,
    oldApprovals: map<Key, OldBallot>,
    invalidations: map<Name, nat>)

  /** What the host tells an action: the time in microseconds and the permission levels that signed. */
  datatype Signed = Signed(now: nat, levels: set<Level>)

  predicate HasAuth(ctx: Signed, account: Name) {
    exists level :: level in ctx.levels && level.actor == account
  }

  /** The host's verdict on whether the given levels authorise a transaction. */
  type Authority = (Trx, seq<Level>) -> bool

  /** The optional hash argument of `approve`, standing for the transaction it was computed from. */
  datatype HashArgument = NoHash | HashOf(trx: Trx)

  // ---------------------------------------------------------------------------------------------
  // Lists

  /** The first position of an element; the length if there is none. */
  function IndexOf<T(==)>(s: seq<T>, x: T): (i: nat)
    ensures i <= |s| && (i < |s| ==> s[i] == x) && x !in s[..i]
    ensures i < |s| <==> x in s
  {
    if s == [] || s[0] == x then 0
    else
      assert s == [s[0]] + s[1..];
      1 + IndexOf(s[1..], x)
  }

  function RemoveAt<T>(s: seq<T>, i: nat): seq<T>
    requires i < |s|
  {
    s[..i] + s[i + 1..]
  }

  function Levels(s: seq<Approval>): (levels: seq<Level>)
    ensures |levels| == |s| && forall i :: 0 <= i < |s| ==> levels[i] == s[i].level
  {
    seq(|s|, i requires 0 <= i < |s| => s[i].level)
  }

  /** Requested entries as `propose` writes them. */
  function Fresh(levels: seq<Level>): (s: seq<Approval>)
    ensures Levels(s) == levels
  {
    seq(|levels|, i requires 0 <= i < |levels| => Approval(levels[i], 0))
  }

  // ---------------------------------------------------------------------------------------------
  // The actions

  function Propose(m: Tables, ctx: Signed, key: Key, requested: seq<Level>, trx: Trx,
        authority: Authority): Result<Tables> {
    var ballot := Ballot(Fresh(requested), []);
    :- Check(HasAuth(ctx, key.proposer), MissingAuth);
    :- Check(Seconds(ctx.now) <= trx.expiration, Expired);
    :- Check(key !in m.proposals, RowExists);
    :- Check(authority(trx, requested), NotAuthorized);
    :- Check(key !in m.approvals, RowExists);
    Ok(m.(proposals := m.proposals[key := trx], approvals := m.approvals[key := ballot]))
  }

  predicate HashFits(m: Tables, key: Key, hash: HashArgument) {
    hash.NoHash? || (key in m.proposals && m.proposals[key] == hash.trx)
  }

  function Approve(m: Tables, ctx: Signed, key: Key, level: Level, hash: HashArgument): Result<Tables> {
    var signed := level in ctx.levels;
    :- Check(signed, MissingAuth);
    :- Check(hash.HashOf? ==> key in m.proposals, RowMissing);
    :- Check(HashFits(m, key, hash), HashMismatch);
    if key in m.approvals then
      var row := m.approvals[key];
      var i := IndexOf(Levels(row.requested), level);
      :- Check(i < |row.requested|, NotRequested);
      Ok(m.(approvals := m.approvals[key :=
        Ballot(RemoveAt(row.requested, i), row.provided + [Approval(level, ctx.now)])]))
    else
      :- Check(key in m.oldApprovals, RowMissing);
      var row := m.oldApprovals[key];
      var i := IndexOf(row.requested, level);
      :- Check(i < |row.requested|, NotRequested);
      Ok(m.(oldApprovals := m.oldApprovals[key := OldBallot(RemoveAt(row.requested, i), row.provided + [level])]))
  }

  function Unapprove(m: Tables, ctx: Signed, key: Key, level: Level): Result<Tables> {
    var signed := level in ctx.levels;
    :- Check(signed, MissingAuth);
    if key in m.approvals then
      var row := m.approvals[key];
      var i := IndexOf(Levels(row.provided), level);
      :- Check(i < |row.provided|, NotProvided);
      Ok(m.(approvals := m.approvals[key :=
        Ballot(row.requested + [Approval(level, ctx.now)], RemoveAt(row.provided, i))]))
    else
      :- Check(key in m.oldApprovals, RowMissing);
      var row := m.oldApprovals[key];
      var i := IndexOf(row.provided, level);
      :- Check(i < |row.provided|, NotProvided);
      Ok(m.(oldApprovals := m.oldApprovals[key := OldBallot(row.requested + [level], RemoveAt(row.provided, i))]))
  }

  /** Erases the approvals of a proposal from whichever table holds them. */
  function DropBallot(m: Tables, key: Key): Result<Tables> {
    if key in m.approvals then Ok(m.(approvals := m.approvals - {key}))
    else if key in m.oldApprovals then Ok(m.(oldApprovals := m.oldApprovals - {key}))
    else Abort(RowMissing)
  }

  function Cancel(m: Tables, ctx: Signed, key: Key, canceler: Name): Result<Tables> {
    var signed := HasAuth(ctx, canceler);
    :- Check(signed, MissingAuth);
    :- Check(key in m.proposals, RowMissing);
    :- Check(canceler != key.proposer ==> m.proposals[key].expiration < Seconds(ctx.now), NotExpired);
    DropBallot(m.(proposals := m.proposals - {key}), key)
  }

  /** The provided entries, in order, whose actor has not invalidated since. */
  function CountedNew(provided: seq<Approval>, invalidations: map<Name, nat>): seq<Level> {
    if provided == [] then []
    else
      var p := provided[|provided| - 1];
      var rest := CountedNew(provided[..|provided| - 1], invalidations);
      if p.level.actor !in invalidations || invalidations[p.level.actor] < p.time then rest + [p.level] else rest
  }

  /** Old entries carry no time: any invalidation ever made strikes them out. */
  function CountedOld(provided: seq<Level>, invalidations: map<Name, nat>): seq<Level> {
    if provided == [] then []
    else
      var level := provided[|provided| - 1];
      var rest := CountedOld(provided[..|provided| - 1], invalidations);
      if level.actor !in invalidations then rest + [level] else rest
  }

  /** The levels that `exec` presents to the host for a proposal. */
  function Counted(m: Tables, key: Key): seq<Level> {
    if key in m.approvals then CountedNew(m.approvals[key].provided, m.invalidations)
    else if key in m.oldApprovals then CountedOld(m.oldApprovals[key].provided, m.invalidations)
    else []
  }

  function Exec(m: Tables, ctx: Signed, key: Key, executer: Name, authority: Authority): Result<Tables> {
    var signed := HasAuth(ctx, executer);
    :- Check(signed, MissingAuth);
    :- Check(key in m.proposals, RowMissing);
    :- Check(Seconds(ctx.now) <= m.proposals[key].expiration, Expired);
    var dropped :- DropBallot(m, key);
    :- Check(authority(m.proposals[key], Counted(m, key)), NotAuthorized);
    Ok(dropped.(proposals := m.proposals - {key}))
  }

  function Invalidate(m: Tables, ctx: Signed, account: Name): Result<Tables> {
    var signed := HasAuth(ctx, account);
    :- Check(signed, MissingAuth);
    Ok(m.(invalidations := m.invalidations[account := ctx.now]))
  }

  /** The identifier under which `exec` sends the transaction. */
  function DeferredId(key: Key): int {
    key.proposer * 0x1_0000_0000_0000_0000 + key.name
  }

  /** Distinct proposals are sent under distinct identifiers. */
  lemma DeferredIdInjective(a: Key, b: Key)
    requires DeferredId(a) == DeferredId(b)
    ensures a == b
  {
  }

  /** Executing a proposal and cancelling it for someone else are never both possible at one time. */
  lemma ExecExcludesForeignCancel(m: Tables, ctx: Signed, ctx': Signed, key: Key, executer: Name,
        canceler: Name, authority: Authority)
    requires ctx.now == ctx'.now && canceler != key.proposer
    ensures !(Exec(m, ctx, key, executer, authority).Ok? && Cancel(m, ctx', key, canceler).Ok?)
  {
  }

  // ---------------------------------------------------------------------------------------------
  // One action

  datatype Action =
    | ProposeAction(key: Key, requested: seq<Level>, trx: Trx, authority: Authority)
    | ApproveAction(key: Key, level: Level, hash: HashArgument)
    | UnapproveAction(key: Key, level: Level)
    | CancelAction(key: Key, canceler: Name)
    | ExecAction(key: Key, executer: Name, authority: Authority)
    | InvalidateAction(account: Name)

  function Do(m: Tables, ctx: Signed, a: Action): Result<Tables> {
    match a
    case ProposeAction(key, requested, trx, authority) => Propose(m, ctx, key, requested, trx, authority)
    case ApproveAction(key, level, hash) => Approve(m, ctx, key, level, hash)
    case UnapproveAction(key, level) => Unapprove(m, ctx, key, level)
    case CancelAction(key, canceler) => Cancel(m, ctx, key, canceler)
    case ExecAction(key, executer, authority) => Exec(m, ctx, key, executer, authority)
    case InvalidateAction(account) => Invalidate(m, ctx, account)
  }
}
