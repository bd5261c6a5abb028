/** The election of block producers: an early-stopping scan over a secondary index. */
module Election {
  import opened Base
  import opened Voting

  type uint32 = x: int | 0 <= x < 0x1_0000_0000

  /** When the schedule was last recomputed, and how large the last accepted schedule was. */
  datatype Sched = Sched(lastUpdate: uint32, lastSize: nat)

  datatype ProducerKey = ProducerKey(owner: Name, key: nat)

  const MAX_PRODUCERS: nat := 21

  // ---------------------------------------------------------------------------------------------
  // The index

  /** The secondary key: negated for active producers, so that the heaviest active one comes first. */
  function ByVotes(p: Producer): int {
    if p.active then -p.weight else p.weight
  }

  /** Rows are ordered by secondary key, and by owner where those are equal. */
  predicate Before(ps: map<Name, Producer>, a: Name, b: Name)
  {
    && a in ps && b in ps
    && (ByVotes(ps[a]) < ByVotes(ps[b]) || (ByVotes(ps[a]) == ByVotes(ps[b]) && a < b))
  }

  /** The host's view of the table through its secondary index: every row once, in order. */
  ghost predicate IsIndex(ps: map<Name, Producer>, idx: seq<Name>) {
    && (forall p :: p in ps <==> p in idx)
    && forall i, j :: 0 <= i < j < |idx| ==> Before(ps, idx[i], idx[j])
  }

  predicate Eligible(p: Producer) {
    0 < p.weight && p.active
  }

  /** The scan: from the front of the index, as long as there is room and rows are eligible. */
  function Scan(ps: map<Name, Producer>, idx: seq<Name>, room: nat): (top: seq<Name>)
    requires forall p :: p in idx ==> p in ps
    ensures forall p :: p in top ==> p in idx
  {
    if idx == [] || room == 0 || !Eligible(ps[idx[0]]) then []
    else [idx[0]] + Scan(ps, idx[1..], room - 1)
  }

  // ---------------------------------------------------------------------------------------------
  // The schedule

  /** What a recomputation leaves: the new schedule record, and the schedule handed to the host if any. */
  datatype Recomputed = Recomputed(sched: Sched, proposed: seq<ProducerKey>)

  function Keyed(ps: map<Name, Producer>, names: seq<Name>): seq<ProducerKey>
    requires forall p :: p in names ==> p in ps
  {
    seq(|names|, i requires 0 <= i < |names| => ProducerKey(names[i], ps[names[i]].key))
  }

  /** `accepted` is the host's answer to the proposed schedule; negative means it was not taken. */
  function UpdateElected(sched: Sched, ps: map<Name, Producer>, idx: seq<Name>, slot: uint32, accepted: int): Recomputed
    requires forall p :: p in idx ==> p in ps
  {
    var top := Scan(ps, idx, MAX_PRODUCERS);
    var stamped := sched.(lastUpdate := slot);
    if |top| == 0 || |top| < sched.lastSize then Recomputed(stamped, [])
    else Recomputed(if accepted >= 0 then stamped.(lastSize := |top|) else stamped, Keyed(ps, top))
  }

  /** Slots are unsigned 32-bit numbers, and so is their difference. */
  predicate UpdateDue(sched: Sched, slot: uint32) {
    (slot - sched.lastUpdate) % 0x1_0000_0000 > 120
  }

  function OnBlock(sched: Sched, ps: map<Name, Producer>, idx: seq<Name>, ctx: Context, slot: uint32,
        accepted: int): Result<Sched>
    requires forall p :: p in idx ==> p in ps
  {
    if SYSTEM !in ctx.auth then Abort(MissingAuth)
    else Ok(if UpdateDue(sched, slot) then UpdateElected(sched, ps, idx, slot, accepted).sched else sched)
  }

  // ---------------------------------------------------------------------------------------------
  // The index exists and is unique

  /** The earliest row of a set in index order. */
  ghost function First(ps: map<Name, Producer>, names: set<Name>): (p: Name)
    requires names != {} && names <= ps.Keys
    ensures p in names && forall q :: q in names && q != p ==> Before(ps, p, q)
    decreases |names|
  {
    var n :| n in names;
    assert forall q :: q in names && q != n ==> q in names - {n};
    if names - {n} == {} then n
    else
      var m := First(ps, names - {n});
      if Before(ps, n, m) then n else m
  }

  /** The index of a table, built row by row. */
  ghost function IndexOf(ps: map<Name, Producer>, names: set<Name>): (idx: seq<Name>)
    requires names <= ps.Keys
    ensures forall p :: p in names <==> p in idx
    ensures forall i, j :: 0 <= i < j < |idx| ==> Before(ps, idx[i], idx[j])
    decreases |names|
  {
    if names == {} then []
    else
      var p := First(ps, names);
      [p] + IndexOf(ps, names - {p})
  }

  ghost function Index(ps: map<Name, Producer>): (idx: seq<Name>)
    ensures IsIndex(ps, idx)
  {
    IndexOf(ps, ps.Keys)
  }

  lemma TailMembers(ps: map<Name, Producer>, a: seq<Name>)
    requires a != [] && forall i, j :: 0 <= i < j < |a| ==> Before(ps, a[i], a[j])
    ensures forall p :: p in a[1..] <==> p in a && p != a[0]
  {
    assert a == [a[0]] + a[1..];
  }

  /** A table has one index only, so the order the host presents is determined by the rows. */
  lemma {:induction false} IndexUnique(ps: map<Name, Producer>, a: seq<Name>, b: seq<Name>)
    requires forall p :: p in a <==> p in b
    requires forall p :: p in a ==> p in ps
    requires forall i, j :: 0 <= i < j < |a| ==> Before(ps, a[i], a[j])
    requires forall i, j :: 0 <= i < j < |b| ==> Before(ps, b[i], b[j])
    ensures a == b
    decreases |a|
  {
    if a == [] {
      assert forall i :: 0 <= i < |b| ==> b[i] in b;
    } else {
      assert a[0] in a;
      assert b[0] in b;
      assert a[0] == b[0];
      TailMembers(ps, a);
      TailMembers(ps, b);
      IndexUnique(ps, a[1..], b[1..]);
    }
  }

  // ---------------------------------------------------------------------------------------------
  // What the scan must elect

  /** Heavier producers rank first; among equals, the smaller name. */
  predicate Outranks(ps: map<Name, Producer>, a: Name, b: Name)
  {
    && a in ps && b in ps
    && (ps[a].weight > ps[b].weight || (ps[a].weight == ps[b].weight && a < b))
  }

  ghost function Candidates(ps: map<Name, Producer>): set<Name> {
    set p | p in ps && Eligible(ps[p])
  }

  /** The election as specified: the candidates in rank order, cut off after the first 21. */
  ghost predicate Elected(ps: map<Name, Producer>, top: seq<Name>) {
    && (forall p :: p in top ==> p in Candidates(ps))
    && (forall i, j :: 0 <= i < j < |top| ==> Outranks(ps, top[i], top[j]))
    && |top| <= MAX_PRODUCERS
    && forall q :: q in Candidates(ps) && q !in top ==>
         |top| == MAX_PRODUCERS && forall p :: p in top ==> Outranks(ps, p, q)
  }

  function Elements(s: seq<Name>): set<Name> {
    set p | p in s
  }

  lemma {:induction false} DistinctSize(s: seq<Name>)
    requires Distinct(s)
    ensures |Elements(s)| == |s|
    decreases |s|
  {
    if s != [] {
      var rest, last := s[..|s| - 1], s[|s| - 1];
      DistinctSize(rest);
      assert last !in rest;
      assert Elements(s) == Elements(rest) + {last} by {
        assert s == rest + [last];
      }
    }
  }

  /** The specification fixes the number elected: all candidates, up to 21. */
  lemma ElectedSize(ps: map<Name, Producer>, top: seq<Name>)
    requires Elected(ps, top)
    ensures |top| == if |Candidates(ps)| < MAX_PRODUCERS then |Candidates(ps)| else MAX_PRODUCERS
  {
    assert Distinct(top);
    DistinctSize(top);
    var chosen := Elements(top);
    SubsetSize(chosen, Candidates(ps));
    if |top| < MAX_PRODUCERS {
      assert chosen == Candidates(ps);
    }
  }

  lemma {:induction false} SubsetSize(a: set<Name>, b: set<Name>)
    requires a <= b
    ensures |a| <= |b|
    decreases |a|
  {
    if a != {} {
      var x :| x in a;
      SubsetSize(a - {x}, b - {x});
    }
  }

  /** The specification has at most one solution. */
  lemma ElectedUnique(ps: map<Name, Producer>, a: seq<Name>, b: seq<Name>)
    requires Elected(ps, a) && Elected(ps, b)
    ensures a == b
  {
    ElectedSize(ps, a);
    ElectedSize(ps, b);
    ElectedPrefix(ps, a, b, |a|);
  }

  lemma {:induction false} ElectedPrefix(ps: map<Name, Producer>, a: seq<Name>, b: seq<Name>, n: nat)
    requires Elected(ps, a) && Elected(ps, b) && n <= |a| == |b|
    ensures a[..n] == b[..n]
    decreases n
  {
    if n > 0 {
      ElectedPrefix(ps, a, b, n - 1);
      NotBehind(ps, a, b, n - 1);
      NotBehind(ps, b, a, n - 1);
    }
  }

  /** After a common prefix, neither solution's next producer is outranked by the other's. */
  lemma NotBehind(ps: map<Name, Producer>, a: seq<Name>, b: seq<Name>, i: nat)
    requires Elected(ps, a) && Elected(ps, b) && i < |a| == |b| && a[..i] == b[..i]
    ensures a[i] == b[i] || Outranks(ps, b[i], a[i])
  {
    assert a[i] in a && b[i] in b;
    if a[i] in b {
      var j :| 0 <= j < |b| && b[j] == a[i];
      assert forall k :: 0 <= k < i ==> a[k] == a[..i][k] && b[k] == b[..i][k] && Outranks(ps, a[k], a[i]);
    }
  }

  // ---------------------------------------------------------------------------------------------
  // The scan against the specification

  /** The scan takes a prefix of eligible rows and stops for one of three reasons. */
  lemma {:induction false} ScanPrefix(ps: map<Name, Producer>, idx: seq<Name>, room: nat)
    requires forall p :: p in idx ==> p in ps
    ensures var top := Scan(ps, idx, room);
            && |top| <= room && |top| <= |idx| && top == idx[..|top|]
            && (forall p :: p in top ==> Eligible(ps[p]))
            && (|top| == room || |top| == |idx| || !Eligible(ps[idx[|top|]]))
    decreases |idx|
  {
    if idx != [] && room != 0 && Eligible(ps[idx[0]]) {
      ScanPrefix(ps, idx[1..], room - 1);
    }
  }

  // ---------------------------------------------------------------------------------------------
  // What is proposed

  function Owners(keys: seq<ProducerKey>): (names: seq<Name>)
    ensures |names| == |keys| && forall i :: 0 <= i < |keys| ==> names[i] == keys[i].owner
  {
    seq(|keys|, i requires 0 <= i < |keys| => keys[i].owner)
  }

  /** The eligible rows at the front of an index, as many as there are seats for. */
  ghost predicate EligibleFront(ps: map<Name, Producer>, idx: seq<Name>, top: seq<Name>)
    requires forall p :: p in idx ==> p in ps
  {
    && |top| <= |idx| && top == idx[..|top|] && |top| <= 21
    && (forall p :: p in top ==> ps[p].active && 0 < ps[p].weight)
    && (|top| < 21 && |top| < |idx| ==> !ps[idx[|top|]].active || ps[idx[|top|]].weight <= 0)
  }

  lemma FrontUnique(ps: map<Name, Producer>, idx: seq<Name>, a: seq<Name>, b: seq<Name>)
    requires forall p :: p in idx ==> p in ps
    requires EligibleFront(ps, idx, a) && EligibleFront(ps, idx, b)
    ensures a == b
  {
  }

  /** A recomputation stamps its slot. It proposes the eligible front of the index, each producer with its own
      key, exactly when there is one and it is not smaller than the last accepted schedule. */
  lemma ProposalEffect(sched: Sched, ps: map<Name, Producer>, idx: seq<Name>, slot: uint32, accepted: int)
    requires forall p :: p in idx ==> p in ps
    ensures var r := UpdateElected(sched, ps, idx, slot, accepted);
            && r.sched.lastUpdate == slot
            && (forall i :: 0 <= i < |r.proposed| ==>
                 r.proposed[i].owner in ps && r.proposed[i].key == ps[r.proposed[i].owner].key)
            && exists top :: EligibleFront(ps, idx, top)
                 && (r.proposed != [] <==> 0 < |top| && sched.lastSize <= |top|)
                 && (r.proposed != [] ==> Owners(r.proposed) == top)
  {
    hide Scan;
    var top := Scan(ps, idx, MAX_PRODUCERS);
    ScanPrefix(ps, idx, MAX_PRODUCERS);
    assert EligibleFront(ps, idx, top);
    assert forall i :: 0 <= i < |top| ==> top[i] in top;
  }

  /** The candidates in front of a row. */
  ghost function Ahead(ps: map<Name, Producer>, b: Name): set<Name> {
    set p | p in Candidates(ps) && Before(ps, p, b)
  }

  /** One step of the scan, from a position. */
  lemma ScanStep(ps: map<Name, Producer>, idx: seq<Name>, i: nat, room: nat)
    requires i <= |idx| && forall p :: p in idx ==> p in ps
    ensures Scan(ps, idx[i..], room) ==
              if i < |idx| && 0 < room && Eligible(ps[idx[i]]) then [idx[i]] + Scan(ps, idx[i + 1..], room - 1) else []
  {
    if i < |idx| { assert idx[i..][0] == idx[i] && idx[i..][1..] == idx[i + 1..]; }
  }

  /** A row that stops the scan although a candidate behind it should still be elected. */
  ghost predicate Blocks(ps: map<Name, Producer>, b: Name, q: Name) {
    && b in ps && q in ps
    && !Eligible(ps[b]) && Eligible(ps[q]) && Before(ps, b, q)
    && |Ahead(ps, b)| < MAX_PRODUCERS
  }

  ghost predicate Blocked(ps: map<Name, Producer>) {
    exists b, q :: Blocks(ps, b, q)
  }

  /** The early-stopping scan elects exactly what is specified if and only if no ineligible row with a
      smaller key stands before a candidate that is due for election. */
  lemma ScanIsElection(ps: map<Name, Producer>, idx: seq<Name>)
    requires IsIndex(ps, idx)
    ensures Elected(ps, Scan(ps, idx, MAX_PRODUCERS)) <==> !Blocked(ps)
  {
    hide Scan, IsIndex;
    FrontOutranks(ps, idx);
    var top := Scan(ps, idx, MAX_PRODUCERS);
    ScanPrefix(ps, idx, MAX_PRODUCERS);
    if !Blocked(ps) {
      forall q | q in Candidates(ps) && q !in top
        ensures |top| == MAX_PRODUCERS && forall p :: p in top ==> Outranks(ps, p, q)
      {
        StopsOnlyAtBlock(ps, idx, q);
      }
    } else {
      var b, q :| Blocks(ps, b, q);
      BlockLosesCandidate(ps, idx, b, q);
    }
  }

  /** Among eligible rows, the index order is the rank order. */
  lemma FrontOutranks(ps: map<Name, Producer>, idx: seq<Name>)
    requires IsIndex(ps, idx)
    ensures forall p :: p in idx ==> p in ps
    ensures forall i, j :: 0 <= i < j < |idx| && Eligible(ps[idx[i]]) && Eligible(ps[idx[j]]) ==>
              Outranks(ps, idx[i], idx[j])
  {
  }

  lemma StopsOnlyAtBlock(ps: map<Name, Producer>, idx: seq<Name>, q: Name)
    requires IsIndex(ps, idx) && !Blocked(ps)
    requires q in Candidates(ps) && q !in Scan(ps, idx, MAX_PRODUCERS)
    ensures |Scan(ps, idx, MAX_PRODUCERS)| == MAX_PRODUCERS
    ensures forall p :: p in Scan(ps, idx, MAX_PRODUCERS) ==> Before(ps, p, q)
  {
    hide Before, Eligible, ByVotes, Blocks, Scan;
    var top := Scan(ps, idx, MAX_PRODUCERS);
    ScanPrefix(ps, idx, MAX_PRODUCERS);
    var j :| 0 <= j < |idx| && idx[j] == q;
    assert forall k :: 0 <= k < |top| ==> top[k] == idx[k] && top[k] in top;
    if |top| < MAX_PRODUCERS {
      StopRowBlocks(ps, idx, |top|, q);
    }
  }

  /** An ineligible row right after fewer than 21 eligible ones blocks every candidate behind it. */
  lemma StopRowBlocks(ps: map<Name, Producer>, idx: seq<Name>, n: nat, q: Name)
    requires IsIndex(ps, idx) && n < |idx| && n < MAX_PRODUCERS && forall p :: p in idx[..n] ==> Eligible(ps[p])
    requires !Eligible(ps[idx[n]]) && q in Candidates(ps) && Before(ps, idx[n], q)
    ensures Blocks(ps, idx[n], q)
  {
    assert idx[n] in idx;
    AheadElements(ps, idx, n);
    DistinctSize(idx[..n]);
  }

  /** In an index, the rows before a position are the ones in front of it. */
  lemma AheadIsTop(ps: map<Name, Producer>, idx: seq<Name>, n: nat)
    requires IsIndex(ps, idx) && n < |idx|
    ensures forall p :: p in ps ==> (Before(ps, p, idx[n]) <==> p in idx[..n])
  {
    forall p | p in ps ensures Before(ps, p, idx[n]) <==> p in idx[..n] {
      var j :| 0 <= j < |idx| && idx[j] == p;
      if j < n { assert idx[..n][j] == p; }
    }
  }

  lemma AheadElements(ps: map<Name, Producer>, idx: seq<Name>, n: nat)
    requires IsIndex(ps, idx) && n < |idx| && forall p :: p in idx[..n] ==> Eligible(ps[p])
    ensures Ahead(ps, idx[n]) == Elements(idx[..n])
  {
    hide Before, Eligible, ByVotes;
    AheadIsTop(ps, idx, n);
  }

  lemma BlockLosesCandidate(ps: map<Name, Producer>, idx: seq<Name>, b: Name, q: Name)
    requires IsIndex(ps, idx) && Blocks(ps, b, q)
    ensures q !in Scan(ps, idx, MAX_PRODUCERS) && |Scan(ps, idx, MAX_PRODUCERS)| < MAX_PRODUCERS
  {
    hide Before, Eligible, Scan, ByVotes;
    var top := Scan(ps, idx, MAX_PRODUCERS);
    ScanPrefix(ps, idx, MAX_PRODUCERS);
    var i :| 0 <= i < |idx| && idx[i] == b;
    FrontIsAhead(ps, idx, top, i);
    if q in top { NotBothBefore(ps, b, q); }
  }

  /** Eligible rows at the front of an index, before a position, are candidates ahead of it. */
  lemma FrontIsAhead(ps: map<Name, Producer>, idx: seq<Name>, top: seq<Name>, i: nat)
    requires IsIndex(ps, idx) && |top| <= i < |idx| && top == idx[..|top|] && forall p :: p in top ==> Eligible(ps[p])
    ensures |top| <= |Ahead(ps, idx[i])| && forall p :: p in top ==> Before(ps, p, idx[i])
  {
    hide Eligible, ByVotes;
    forall k | 0 <= k < |top| ensures top[k] == idx[k] && Before(ps, top[k], idx[i]) {}
    assert Distinct(top);
    DistinctSize(top);
    SubsetSize(Elements(top), Ahead(ps, idx[i]));
  }

  lemma NotBothBefore(ps: map<Name, Producer>, a: Name, b: Name)
    ensures !(Before(ps, a, b) && Before(ps, b, a))
  {
  }

  /** With non-negative weights, exactly the eligible rows have negative keys, so nothing blocks. */
  lemma NonNegativeNeverBlocks(ps: map<Name, Producer>)
    requires forall p :: p in ps ==> 0 <= ps[p].weight
    ensures forall p :: p in ps ==> (Eligible(ps[p]) <==> ByVotes(ps[p]) < 0)
    ensures !Blocked(ps)
  {
  }
}
