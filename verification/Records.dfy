/** Live events, the records they become, and the ordered record sequences the
    event log, the publication history and every subscriber are made of. */
module Records {

  /** Event ids have 64 bits. */
  const MAX_ID: nat := 0xFFFF_FFFF_FFFF_FFFF

  /** How many records a replay reads at a time. */
  const REPLAY_BATCH: nat := 512

  /** A live event (internal/liveevent). `at` is an instant, with a total order. */
  datatype LiveEvent = LiveEvent(
    typ: string,
    at: int,
    provider: string,
    sourceID: string,
    sessionID: string,
    externalSessionID: string,
    transcriptPath: string,
    file: string,
    status: string)

  /** An event under the id the server gave it: what is published to subscribers,
      handed to the persister and stored in the event log. */
  datatype Rec = Rec(id: nat, ev: LiveEvent)

  predicate Increasing(rs: seq<Rec>) {
    forall i, j :: 0 <= i < j < |rs| ==> rs[i].id < rs[j].id
  }

  predicate Positive(rs: seq<Rec>) {
    forall i :: 0 <= i < |rs| ==> rs[i].id > 0
  }

  function LastId(rs: seq<Rec>): nat {
    if rs == [] then 0 else rs[|rs| - 1].id
  }

  function FirstId(rs: seq<Rec>): nat {
    if rs == [] then 0 else rs[0].id
  }

  function Ids(rs: seq<Rec>): set<nat> {
    set r | r in rs :: r.id
  }

  /** The records with lo < id <= hi, in order. */
  function Between(rs: seq<Rec>, lo: nat, hi: nat): seq<Rec> {
    if rs == [] then []
    else
      var front := Between(rs[..|rs| - 1], lo, hi);
      var x := rs[|rs| - 1];
      if lo < x.id <= hi then front + [x] else front
  }

  /** The records with lo < id, in order. */
  function Above(rs: seq<Rec>, lo: nat): seq<Rec> {
    if rs == [] then []
    else
      var front := Above(rs[..|rs| - 1], lo);
      var x := rs[|rs| - 1];
      if lo < x.id then front + [x] else front
  }

  /** The records over `after`, up to `until` when that is set. */
  function Selected(rs: seq<Rec>, after: nat, until: nat): seq<Rec> {
    if until > 0 then Between(rs, after, until) else Above(rs, after)
  }

  function Take(rs: seq<Rec>, n: nat): seq<Rec> {
    if |rs| <= n then rs else rs[..n]
  }

  lemma AboveSnoc(rs: seq<Rec>, x: Rec, lo: nat)
    ensures Above(rs + [x], lo) == if lo < x.id then Above(rs, lo) + [x] else Above(rs, lo)
  {
  }

  lemma SnocIncreasing(rs: seq<Rec>, x: Rec)
    requires Increasing(rs) && LastId(rs) < x.id
    ensures Increasing(rs + [x])
  {
  }

  lemma LastIsGreatest(rs: seq<Rec>)
    requires Increasing(rs)
    ensures forall r :: r in rs ==> r.id <= LastId(rs)
  {
  }

  /** Between picks exactly the records of the range and keeps their order. */
  lemma {:induction false} BetweenMembers(rs: seq<Rec>, lo: nat, hi: nat)
    requires Increasing(rs)
    ensures forall r :: r in Between(rs, lo, hi) <==> r in rs && lo < r.id <= hi
    ensures Increasing(Between(rs, lo, hi))
    ensures LastId(Between(rs, lo, hi)) <= LastId(rs)
  {
    if rs != [] {
      var front, x := rs[..|rs| - 1], rs[|rs| - 1];
      BetweenMembers(front, lo, hi);
      LastIsGreatest(front);
      assert rs == front + [x];
      PickedSnoc(Between(front, lo, hi), front, x);
    }
  }

  /** Appending a record picks it or not. */
  lemma PickedSnoc(picked: seq<Rec>, front: seq<Rec>, x: Rec)
    requires Increasing(picked) && Increasing(front + [x]) && forall r :: r in picked ==> r in front
    ensures Increasing(picked + [x]) && LastId(picked + [x]) == x.id && LastId(picked) <= x.id
    ensures forall r :: r in picked + [x] <==> r in picked || r == x
  {
    forall r | r in picked ensures r.id < x.id {
      var i :| 0 <= i < |front| && front[i] == r;
      assert (front + [x])[i].id < (front + [x])[|front|].id;
    }
  }

  /** Above picks exactly the records over the bound and keeps their order. */
  lemma {:induction false} AboveMembers(rs: seq<Rec>, lo: nat)
    requires Increasing(rs)
    ensures forall r :: r in Above(rs, lo) <==> r in rs && lo < r.id
    ensures Increasing(Above(rs, lo))
    ensures LastId(Above(rs, lo)) <= LastId(rs)
  {
    if rs != [] {
      var front, x := rs[..|rs| - 1], rs[|rs| - 1];
      AboveMembers(front, lo);
      LastIsGreatest(front);
      assert rs == front + [x];
      PickedSnoc(Above(front, lo), front, x);
    }
  }

  /** The records over `lo` are those up to any later point followed by the rest. */
  lemma {:induction false} AboveSplits(rs: seq<Rec>, lo: nat, mid: nat)
    requires Increasing(rs) && lo <= mid
    ensures Above(rs, lo) == Between(rs, lo, mid) + Above(rs, mid)
  {
    if rs != [] {
      var front, x := rs[..|rs| - 1], rs[|rs| - 1];
      AboveSplits(front, lo, mid);
      if x.id <= mid {
        AboveEmpty(front, mid);
      }
    }
  }

  lemma {:induction false} BetweenEmpty(rs: seq<Rec>, lo: nat, hi: nat)
    requires hi <= lo
    ensures Between(rs, lo, hi) == []
  {
    if rs != [] {
      BetweenEmpty(rs[..|rs| - 1], lo, hi);
    }
  }

  lemma {:induction false} AboveEmpty(rs: seq<Rec>, lo: nat)
    requires Increasing(rs) && LastId(rs) <= lo
    ensures Above(rs, lo) == []
  {
    if rs != [] {
      LastIsGreatest(rs);
      AboveEmpty(rs[..|rs| - 1], lo);
    }
  }

  /** Extending a range by one id adds exactly the record with that id. */
  lemma {:induction false} BetweenExtend(rs: seq<Rec>, lo: nat, r: Rec)
    requires Increasing(rs) && r in rs && lo < r.id
    ensures Between(rs, lo, r.id) == Between(rs, lo, r.id - 1) + [r]
  {
    var front, x := rs[..|rs| - 1], rs[|rs| - 1];
    if x == r {
      LastIsGreatest(front);
      BetweenSameBelow(front, lo, r.id);
    } else {
      assert r in front;
      LastIsGreatest(rs);
      assert r.id < x.id;
      BetweenExtend(front, lo, r);
    }
  }

  lemma {:induction false} BetweenSameBelow(rs: seq<Rec>, lo: nat, hi: nat)
    requires hi > 0 && forall r :: r in rs ==> r.id < hi
    ensures Between(rs, lo, hi) == Between(rs, lo, hi - 1)
  {
    if rs != [] {
      BetweenSameBelow(rs[..|rs| - 1], lo, hi);
    }
  }

  /** Extending a range never drops or reorders what it already held. */
  lemma {:induction false} BetweenPrefix(rs: seq<Rec>, lo: nat, mid: nat, hi: nat)
    requires Increasing(rs) && mid <= hi
    ensures Between(rs, lo, mid) <= Between(rs, lo, hi)
  {
    if rs != [] {
      var front, x := rs[..|rs| - 1], rs[|rs| - 1];
      BetweenPrefix(front, lo, mid, hi);
      if lo < x.id <= mid {
        LastIsGreatest(front);
        BetweenAll(front, lo, mid, hi);
      }
    }
  }

  lemma {:induction false} BetweenAll(rs: seq<Rec>, lo: nat, mid: nat, hi: nat)
    requires mid <= hi && forall r :: r in rs ==> r.id < mid
    ensures Between(rs, lo, mid) == Between(rs, lo, hi)
  {
    if rs != [] {
      BetweenAll(rs[..|rs| - 1], lo, mid, hi);
    }
  }

  lemma {:induction false} BetweenConcat(a: seq<Rec>, b: seq<Rec>, lo: nat, hi: nat)
    ensures Between(a + b, lo, hi) == Between(a, lo, hi) + Between(b, lo, hi)
  {
    if b == [] {
      assert a + b == a;
    } else {
      assert (a + b)[..|a + b| - 1] == a + b[..|b| - 1];
      BetweenConcat(a, b[..|b| - 1], lo, hi);
    }
  }

  lemma {:induction false} AboveConcat(a: seq<Rec>, b: seq<Rec>, lo: nat)
    ensures Above(a + b, lo) == Above(a, lo) + Above(b, lo)
  {
    if b == [] {
      assert a + b == a;
    } else {
      assert (a + b)[..|a + b| - 1] == a + b[..|b| - 1];
      AboveConcat(a, b[..|b| - 1], lo);
    }
  }

  lemma {:induction false} BetweenWhole(rs: seq<Rec>, lo: nat, hi: nat)
    requires forall r :: r in rs ==> lo < r.id <= hi
    ensures Between(rs, lo, hi) == rs
  {
    if rs != [] {
      BetweenWhole(rs[..|rs| - 1], lo, hi);
      assert rs == rs[..|rs| - 1] + [rs[|rs| - 1]];
    }
  }

  lemma {:induction false} BetweenNothing(rs: seq<Rec>, lo: nat, hi: nat)
    requires forall r :: r in rs ==> r.id <= lo || hi < r.id
    ensures Between(rs, lo, hi) == []
  {
    if rs != [] {
      BetweenNothing(rs[..|rs| - 1], lo, hi);
    }
  }

  lemma {:induction false} AboveWhole(rs: seq<Rec>, lo: nat)
    requires forall r :: r in rs ==> lo < r.id
    ensures Above(rs, lo) == rs
  {
    if rs != [] {
      AboveWhole(rs[..|rs| - 1], lo);
      assert rs == rs[..|rs| - 1] + [rs[|rs| - 1]];
    }
  }

  lemma {:induction false} AboveNothing(rs: seq<Rec>, lo: nat)
    requires forall r :: r in rs ==> r.id <= lo
    ensures Above(rs, lo) == []
  {
    if rs != [] {
      AboveNothing(rs[..|rs| - 1], lo);
    }
  }
}
