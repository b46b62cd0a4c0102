/** The parent links of subagent sessions (store/sqlite/ingest.go:480-543): an UPDATE
    repeated until it changes nothing. */
module Parents {
  import opened Wrappers

  /** Row ids, in the order their texts compare. */
  type Id = nat

  datatype Row = Row(externalID: string, source: string, isSubagent: bool, parentExternalID: string,
      parent: Option<Id>, createdAt: int)
  type Rows = map<Id, Row>

  /** Rows a child may be linked to: top-level sessions and subagents already linked. */
  predicate Eligible(rows: Rows, p: Id) {
    p in rows && (!rows[p].isSubagent || rows[p].parent.Some?)
  }

  /** `p` is the session row `r` names as its parent. */
  predicate Names(rows: Rows, r: Id, p: Id) {
    r in rows && p in rows && p != r && rows[p].externalID == rows[r].parentExternalID &&
        rows[p].source == rows[r].source
  }

  predicate Candidate(rows: Rows, r: Id, p: Id) {
    Names(rows, r, p) && Eligible(rows, p)
  }

  /** A subagent that names a parent and has none. */
  predicate Open(rows: Rows, r: Id) {
    r in rows && rows[r].isSubagent && rows[r].parentExternalID != "" && rows[r].parent.None?
  }

  /** The WHERE clause of the update. */
  predicate Resolvable(rows: Rows, r: Id) {
    Open(rows, r) && exists p :: p in rows && Candidate(rows, r, p)
  }

  /** ORDER BY is_subagent, created_at, id. */
  predicate Before(rows: Rows, a: Id, b: Id)
    requires a in rows && b in rows
  {
    if rows[a].isSubagent != rows[b].isSubagent then !rows[a].isSubagent
    else if rows[a].createdAt != rows[b].createdAt then rows[a].createdAt < rows[b].createdAt
    else a <= b
  }

  /** Top-level rows come first, older ones of the same kind, and of the same age the one
      with the lesser id. */
  predicate AtOrBefore(rows: Rows, a: Id, b: Id)
    requires a in rows && b in rows
  {
    || (!rows[a].isSubagent && rows[b].isSubagent)
    || (rows[a].isSubagent == rows[b].isSubagent &&
         (rows[a].createdAt < rows[b].createdAt || (rows[a].createdAt == rows[b].createdAt && a <= b)))
  }

  predicate IsFirst(rows: Rows, r: Id, p: Id) {
    Candidate(rows, r, p) && forall q :: q in rows && Candidate(rows, r, q) ==> AtOrBefore(rows, p, q)
  }

  /** The subquery: the first candidate in that order. */
  method FirstCandidate(rows: Rows, r: Id) returns (p: Id)
    requires Resolvable(rows, r)
    ensures IsFirst(rows, r, p)
  {
    p :| p in rows && Candidate(rows, r, p);
    var todo := rows.Keys - {p};
    while todo != {}
      invariant todo <= rows.Keys && Candidate(rows, r, p)
      invariant forall q :: q in rows && q !in todo && Candidate(rows, r, q) ==> AtOrBefore(rows, p, q)
    {
      var q :| q in todo;
      todo := todo - {q};
      if Candidate(rows, r, q) && !Before(rows, p, q) {
        p := q;
      }
    }
  }

  /** `after` is `before` with some open rows linked. */
  ghost predicate Linked(before: Rows, after: Rows) {
    && before.Keys == after.Keys
    && forall r :: r in before ==>
         && after[r] == before[r].(parent := after[r].parent)
         && (!Open(before, r) ==> after[r] == before[r])
         && (after[r].parent.Some? && before[r].parent.None? ==> SoundLink(before, after, r))
  }

  /** A new link leads to a row the child names: the first top-level one if there is any,
      else a linked subagent. */
  ghost predicate SoundLink(before: Rows, after: Rows, r: Id)
    requires before.Keys == after.Keys && r in after && after[r].parent.Some?
  {
    var p := after[r].parent.value;
    && Candidate(after, r, p)
    && (forall q :: q in before && Names(before, r, q) && !before[q].isSubagent ==>
        !before[p].isSubagent && AtOrBefore(before, p, q))
  }

  /** A set of rows that holds the rows eligible at the start and every open row that names
      one of its members. */
  ghost predicate Closed(rows: Rows, s: set<Id>) {
    && (forall p :: Eligible(rows, p) ==> p in s)
    && (forall r, p :: Open(rows, r) && p in s && Names(rows, r, p) ==> r in s)
  }

  /** Every row that has got a parent names it, by external id and source, and it is another
      one, top-level or linked itself. */
  ghost predicate LinksAreTrue(before: Rows, after: Rows) {
    forall r :: r in before && r in after && before[r].parent.None? && after[r].parent.Some? ==>
      var p := after[r].parent.value;
      && after[r].isSubagent && p in after && p != r
      && after[p].externalID == after[r].parentExternalID != "" && after[p].source == after[r].source
      && (!after[p].isSubagent || after[p].parent.Some?)
  }

  /** No subagent is left without a parent that names another row that is top-level or
      linked. */
  ghost predicate NoneLeft(rows: Rows) {
    forall r, p | r in rows && p in rows && p != r ::
      (&& rows[r].isSubagent && rows[r].parent.None? && rows[r].parentExternalID != ""
       && rows[p].externalID == rows[r].parentExternalID && rows[p].source == rows[r].source) ==>
      rows[p].isSubagent && rows[p].parent.None?
  }

  lemma LinkedIsTrue(before: Rows, after: Rows)
    requires Linked(before, after)
    ensures LinksAreTrue(before, after)
  {
    forall r | r in before && before[r].parent.None? && after[r].parent.Some?
      ensures SoundLink(before, after, r) && Open(before, r)
    {
    }
  }

  lemma UnresolvableIsNone(rows: Rows)
    requires forall r :: r in rows ==> !Resolvable(rows, r)
    ensures NoneLeft(rows)
  {
    forall r, p | r in rows && p in rows && p != r && rows[r].isSubagent && rows[r].parent.None? &&
      rows[r].parentExternalID != "" && rows[p].externalID == rows[r].parentExternalID &&
      rows[p].source == rows[r].source
      ensures rows[p].isSubagent && rows[p].parent.None?
    {
      assert !Resolvable(rows, r);
      assert Open(rows, r) && Names(rows, r, p);
    }
  }

  function Unlinked(rows: Rows): set<Id> {
    set r | r in rows && Open(rows, r)
  }

  /** Ranks that fall along every link between subagents, so that every chain ends at a
      top-level row. */
  ghost predicate Ranked(rows: Rows, rank: map<Id, nat>) {
    forall r :: r in rows && rows[r].isSubagent && rows[r].parent.Some? ==>
      && r in rank
      && Eligible(rows, rows[r].parent.value)
      && (rows[rows[r].parent.value].isSubagent ==>
          rows[r].parent.value in rank && rank[rows[r].parent.value] < rank[r])
  }

  ghost predicate Grounded(rows: Rows) {
    exists rank: map<Id, nat> :: Ranked(rows, rank)
  }

  /** Within `n` links the chain from a row is at a top-level row. */
  predicate EndsWithin(rows: Rows, r: Id, n: nat)
    decreases n
  {
    r in rows && (!rows[r].isSubagent ||
        (rows[r].parent.Some? && n > 0 && EndsWithin(rows, rows[r].parent.value, n - 1)))
  }

  /** In a grounded table the chain of every linked subagent ends at a top-level row. */
  lemma {:induction false} GroundedChainsEnd(rows: Rows, rank: map<Id, nat>, r: Id)
    requires Ranked(rows, rank) && Eligible(rows, r)
    ensures EndsWithin(rows, r, if r in rank then rank[r] + 1 else 1)
    decreases if r in rank then rank[r] else 0
  {
    if rows[r].isSubagent {
      var p := rows[r].parent.value;
      if rows[p].isSubagent {
        GroundedChainsEnd(rows, rank, p);
        EndsSooner(rows, p, rank[p] + 1, rank[r]);
      }
    }
  }

  lemma {:induction false} EndsSooner(rows: Rows, r: Id, m: nat, n: nat)
    requires EndsWithin(rows, r, m) && m <= n
    ensures EndsWithin(rows, r, n)
    decreases m
  {
    if rows[r].isSubagent {
      EndsSooner(rows, rows[r].parent.value, m - 1, n - 1);
    }
  }

  /** A link to the first candidate of a table between the one the pass began with and the
      current one is sound. */
  lemma NewLinkIsSound(before: Rows, view: Rows, rows: Rows, r: Id, p: Id)
    requires Linked(before, view) && Linked(before, rows) && Linked(view, rows)
    requires Open(rows, r) && IsFirst(view, r, p)
    ensures before.Keys == rows.Keys && SoundLink(before, rows[r := rows[r].(parent := Some(p))], r)
  {
    var after := rows[r := rows[r].(parent := Some(p))];
    assert Eligible(rows, p);
    assert Candidate(after, r, p);
    forall q | q in before && Names(before, r, q) && !before[q].isSubagent
      ensures !before[p].isSubagent && AtOrBefore(before, p, q)
    {
      assert Candidate(view, r, q);
    }
  }

  lemma OldLinksStaySound(before: Rows, rows: Rows, r: Id, p: Id, x: Id)
    requires Linked(before, rows) && Open(rows, r) && p in rows && x in before && x != r
    requires rows[x].parent.Some? && before[x].parent.None?
    ensures SoundLink(before, rows[r := rows[r].(parent := Some(p))], x)
  {
    assert SoundLink(before, rows, x);
  }

  /** One row of one pass: linking `r` to that candidate. */
  lemma LinkOne(before: Rows, view: Rows, rows: Rows, r: Id, p: Id)
    requires Linked(before, view) && Linked(before, rows) && Linked(view, rows)
    requires Open(rows, r) && IsFirst(view, r, p)
    ensures Linked(before, rows[r := rows[r].(parent := Some(p))])
    ensures Unlinked(rows[r := rows[r].(parent := Some(p))]) == Unlinked(rows) - {r}
  {
    var after := rows[r := rows[r].(parent := Some(p))];
    NewLinkIsSound(before, view, rows, r, p);
    forall x | x in before && x != r && after[x].parent.Some? && before[x].parent.None?
      ensures SoundLink(before, after, x)
    {
      OldLinksStaySound(before, rows, r, p, x);
    }
  }

  /** Every eligible row is in `s`. */
  ghost predicate Within(rows: Rows, s: set<Id>) {
    forall p :: Eligible(rows, p) ==> p in s
  }

  lemma LinkStaysWithin(start: Rows, rows: Rows, r: Id, p: Id, s: set<Id>)
    requires Linked(start, rows) && Closed(start, s) && Within(rows, s) && Open(rows, r) && Candidate(rows, r, p)
    ensures Within(rows[r := rows[r].(parent := Some(p))], s)
  {
  }

  lemma LinkStaysGrounded(rows: Rows, r: Id, p: Id)
    requires Grounded(rows) && Open(rows, r) && Candidate(rows, r, p)
    ensures Grounded(rows[r := rows[r].(parent := Some(p))])
  {
    var rank: map<Id, nat> :| Ranked(rows, rank);
    var after := rows[r := rows[r].(parent := Some(p))];
    var more := rank[r := if rows[p].isSubagent then rank[p] + 1 else 0];
    assert Ranked(after, more);
  }

  /** When nothing is resolvable any more the eligible rows are closed. */
  lemma FixpointIsClosed(start: Rows, rows: Rows)
    requires Linked(start, rows) && forall r :: r in rows ==> !Resolvable(rows, r)
    ensures Closed(start, set p | p in rows && Eligible(rows, p))
  {
  }

  /** Running it again changes nothing: on a table without a resolvable row no row can be
      linked soundly. */
  lemma ResolvedIsFixed(before: Rows, after: Rows)
    requires Linked(before, after) && forall r :: r in before ==> !Resolvable(before, r)
    requires forall s: set<Id> :: Closed(before, s) ==> Within(after, s)
    ensures after == before
  {
    FixpointIsClosed(before, before);
    var s := set p | p in before && Eligible(before, p);
    assert Closed(before, s) && Within(after, s);
    forall r | r in before ensures after[r] == before[r] {
      assert Eligible(after, r) ==> r in s;
    }
  }

  class Sessions {
    var rows: Rows

    /** One UPDATE. It visits the rows in any order, and evaluates its clauses for each on
        the table as the statement found it or as it stands. */
    method Pass(ghost start: Rows) returns (affected: nat)
      requires Linked(start, rows) && forall s: set<Id> :: Closed(start, s) ==> Within(rows, s)
      modifies this
      ensures Linked(start, rows) && forall s: set<Id> :: Closed(start, s) ==> Within(rows, s)
      ensures old(Grounded(rows)) ==> Grounded(rows)
      ensures affected == 0 ==> rows == old(rows) && forall r :: r in rows ==> !Resolvable(rows, r)
      ensures affected > 0 ==> Unlinked(rows) < Unlinked(old(rows))
    {
      affected := 0;
      var found := rows;
      var todo := rows.Keys;
      while todo != {}
        invariant todo <= found.Keys && Linked(start, rows) && Linked(start, found) && Linked(found, rows)
        invariant forall s: set<Id> :: Closed(start, s) ==> Within(rows, s)
        invariant Grounded(found) ==> Grounded(rows)
        invariant affected == 0 ==> rows == found && forall r :: r in found && r !in todo ==> !Resolvable(found, r)
        invariant if affected == 0 then Unlinked(rows) == Unlinked(found) else Unlinked(rows) < Unlinked(found)
        invariant forall r :: r in todo ==> rows[r] == found[r]
      {
        var r :| r in todo;
        todo := todo - {r};
        var view := rows;
        if * {
          view := found;
        }
        if Resolvable(view, r) {
          var p := FirstCandidate(view, r);
          LinkRow(start, found, view, rows, r, p);
          rows := rows[r := rows[r].(parent := Some(p))];
          affected := affected + 1;
        }
      }
    }

    /** resolveSubagentParents: terminates on every table, leaves no row resolvable, and
        links exactly the least set closed under the rule, each row to the first top-level
        session it names if there is one; a grounded table stays grounded. */
    method ResolveSubagentParents()
      modifies this
      ensures Linked(old(rows), rows) && LinksAreTrue(old(rows), rows)
      ensures (forall r :: r in rows ==> !Resolvable(rows, r)) && NoneLeft(rows)
      ensures Closed(old(rows), set p | p in rows && Eligible(rows, p))
      ensures forall s: set<Id> :: Closed(old(rows), s) ==> (set p | p in rows && Eligible(rows, p)) <= s
      ensures old(Grounded(rows)) ==> Grounded(rows)
      ensures old(forall r :: r in rows ==> !Resolvable(rows, r)) ==> rows == old(rows)
    {
      ghost var start := rows;
      var affected := 1;
      while affected != 0
        invariant Linked(start, rows) && forall s: set<Id> :: Closed(start, s) ==> Within(rows, s)
        invariant Grounded(start) ==> Grounded(rows)
        invariant affected == 0 ==> forall r :: r in rows ==> !Resolvable(rows, r)
        decreases Unlinked(rows), affected
      {
        affected := Pass(start);
      }
      FixpointIsClosed(start, rows);
      LinkedIsTrue(start, rows);
      UnresolvableIsNone(rows);
      if forall r :: r in start ==> !Resolvable(start, r) {
        ResolvedIsFixed(start, rows);
      }
    }
  }

  /** What linking one row of a pass keeps. */
  lemma LinkRow(start: Rows, found: Rows, view: Rows, rows: Rows, r: Id, p: Id)
    requires Linked(start, rows) && Linked(start, found) && Linked(found, rows) && view in {found, rows}
    requires Open(view, r) && r in rows && rows[r] == found[r] && IsFirst(view, r, p)
    requires forall s: set<Id> :: Closed(start, s) ==> Within(rows, s)
    ensures var after := rows[r := rows[r].(parent := Some(p))];
      && Linked(start, after) && Linked(found, after)
      && (forall s: set<Id> :: Closed(start, s) ==> Within(after, s))
      && (Grounded(rows) ==> Grounded(after))
      && Unlinked(after) == Unlinked(rows) - {r} && r in Unlinked(rows)
  {
    var after := rows[r := rows[r].(parent := Some(p))];
    assert Linked(view, rows) && Linked(start, view) && Linked(found, view);
    LinkOne(start, view, rows, r, p);
    LinkOne(found, view, rows, r, p);
    assert Candidate(rows, r, p);
    forall s: set<Id> | Closed(start, s) ensures Within(after, s) {
      LinkStaysWithin(start, rows, r, p, s);
    }
    if Grounded(rows) {
      LinkStaysGrounded(rows, r, p);
    }
  }
}
