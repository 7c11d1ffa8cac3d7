/**
 Quarantine of abandoned candidates. A corpus is two directories, its candidates and its abandoned
 entries; the lease of each corpus and the order of a directory listing are inputs.
 */
module CandidateRecovery {
  import opened Basics
  import opened Sorting
  import opened PdfText

  type Name = string

  datatype Lease = Free | Busy | Faulty

  datatype Corpus<Entry> = Corpus(candidates: map<Name, Entry>, abandoned: map<Name, Entry>)

  predicate Hidden(name: Name) {
    name != "" && name[0] == '.'
  }

  // ---------------------------------------------------------------- target names

  /** `{stamp}-{child}`, with `.n` appended from the second attempt on. */
  function Target(stamp: string, child: Name, n: nat): Name {
    stamp + "-" + child + (if n == 0 then "" else "." + Dec(n))
  }

  lemma TargetsDiffer(stamp: string, child: Name, m: nat, n: nat)
    requires Target(stamp, child, m) == Target(stamp, child, n)
    ensures m == n
  {
    var front := stamp + "-" + child;
    SuffixOf(front, m);
    SuffixOf(front, n);
    ValueOfDec(m);
    ValueOfDec(n);
  }

  lemma SuffixOf(front: string, n: nat)
    ensures var text := front + (if n == 0 then "" else "." + Dec(n));
            text[|front|..] == if n == 0 then "" else "." + Dec(n)
    ensures n > 0 ==> ("." + Dec(n))[1..] == Dec(n)
  {
  }

  function Tried(stamp: string, child: Name, n: nat): set<Name> {
    set k | 0 <= k < n :: Target(stamp, child, k)
  }

  lemma {:induction false} TriedSize(stamp: string, child: Name, n: nat)
    ensures |Tried(stamp, child, n)| == n
  {
    if n == 0 {
      assert Tried(stamp, child, n) == {};
    } else {
      TriedSize(stamp, child, n - 1);
      var last := Target(stamp, child, n - 1);
      if last in Tried(stamp, child, n - 1) {
        var k :| 0 <= k < n - 1 && Target(stamp, child, k) == last;
        TargetsDiffer(stamp, child, k, n - 1);
      }
      assert Tried(stamp, child, n) == Tried(stamp, child, n - 1) + {last};
    }
  }

  /** The suffix search: it ends, with the first target name that is free. */
  method FreshTarget<Entry>(taken: map<Name, Entry>, stamp: string, child: Name) returns (target: Name)
    ensures target !in taken
    ensures exists n: nat :: target == Target(stamp, child, n)
              && forall k: nat | k < n :: Target(stamp, child, k) in taken
  {
    target := stamp + "-" + child;
    var n := 0;
    assert target == Target(stamp, child, 0);
    while target in taken
      invariant n >= 0 && target == Target(stamp, child, n)
      invariant Tried(stamp, child, n) <= taken.Keys
      decreases |taken.Keys| - n
    {
      assert Tried(stamp, child, n + 1) == Tried(stamp, child, n) + {target};
      TriedSize(stamp, child, n + 1);
      SubsetSize(Tried(stamp, child, n + 1), taken.Keys);
      n := n + 1;
      target := stamp + "-" + child + "." + Dec(n);
      assert target == Target(stamp, child, n);
    }
    forall k: nat | k < n
      ensures Target(stamp, child, k) in taken
    {
      assert Target(stamp, child, k) in Tried(stamp, child, n);
    }
  }

  // ---------------------------------------------------------------- one corpus

  /** A directory listing: every entry once, in some order. */
  ghost predicate ListingOf<Entry>(listing: seq<Name>, directory: map<Name, Entry>) {
    Distinct(listing) && forall name :: name in listing <==> name in directory
  }

  function Visible(listing: seq<Name>): seq<Name> {
    if listing == [] then [] else (if Hidden(listing[0]) then [] else [listing[0]]) + Visible(listing[1..])
  }

  lemma {:induction false} VisibleMembers(listing: seq<Name>)
    ensures forall name :: name in Visible(listing) <==> name in listing && !Hidden(name)
    ensures Distinct(listing) ==> Distinct(Visible(listing))
  {
    if listing != [] {
      VisibleMembers(listing[1..]);
      assert forall name :: name in listing <==> name == listing[0] || name in listing[1..];
      if Distinct(listing) {
        forall i, j | 0 <= i < j < |listing[1..]|
          ensures listing[1..][i] != listing[1..][j]
        {
          assert listing[1..][i] == listing[i + 1] && listing[1..][j] == listing[j + 1];
        }
        assert listing[0] !in listing[1..] by {
          assert forall i | 0 <= i < |listing[1..]| :: listing[1..][i] == listing[i + 1] != listing[0];
        }
        var rest := Visible(listing[1..]);
        if !Hidden(listing[0]) {
          assert forall i | 0 <= i < |rest| :: rest[i] in rest;
        }
      }
    }
  }

  /** The first `n` children have moved to the targets: each is where it was sent, nothing else changed. */
  ghost predicate Moved<Entry(!new)>(before: Corpus<Entry>, after: Corpus<Entry>,
                                         children: seq<Name>, targets: seq<Name>) {
    && |targets| <= |children|
    && Distinct(targets)
    && (forall i | 0 <= i < |targets| ::
          && targets[i] !in before.abandoned && targets[i] in after.abandoned
          && children[i] in before.candidates
          && after.abandoned[targets[i]] == before.candidates[children[i]])
    && (forall name | name in before.abandoned ::
          name in after.abandoned && after.abandoned[name] == before.abandoned[name])
    && (forall name | name in after.abandoned :: name in before.abandoned || name in targets)
    && (forall name :: name in after.candidates <==> name in before.candidates && name !in children[..|targets|])
    && (forall name | name in after.candidates :: after.candidates[name] == before.candidates[name])
  }

  lemma MoveOne<Entry(!new)>(before: Corpus<Entry>, after: Corpus<Entry>,
                                  children: seq<Name>, targets: seq<Name>, target: Name)
    requires Moved(before, after, children, targets) && |targets| < |children|
    requires Distinct(children) && forall c | c in children :: c in before.candidates
    requires target !in after.abandoned
    ensures var child := children[|targets|];
            child in after.candidates
            && Moved(before, Corpus(after.candidates - {child}, after.abandoned[target := after.candidates[child]]),
                     children, targets + [target])
  {
    var n, child := |targets|, children[|targets|];
    assert child in children;
    assert child !in children[..n] by {
      assert forall i | 0 <= i < n :: children[..n][i] == children[i] != children[n];
    }
    assert child in after.candidates;
    assert children[..n + 1] == children[..n] + [child];
    forall i | 0 <= i < n
      ensures targets[i] != target
    {
      assert targets[i] in after.abandoned;
    }
  }

  /** The targets are new names, and the only ones; earlier entries stand as they were. */
  ghost predicate Grew<Entry(!new)>(before: map<Name, Entry>, after: map<Name, Entry>, targets: seq<Name>) {
    && Distinct(targets)
    && (forall name :: name in after <==> name in before || name in targets)
    && (forall t | t in targets :: t !in before)
    && (forall name | name in before :: after[name] == before[name])
  }

  /** Only the hidden candidates are left. */
  ghost predicate OnlyHiddenLeft<Entry(!new)>(before: map<Name, Entry>, after: map<Name, Entry>) {
    && (forall name :: name in after <==> name in before && Hidden(name))
    && (forall name | name in after :: after[name] == before[name])
  }

  /** The targets hold the visible candidates, one each. */
  ghost predicate Carried<Entry(!new)>(candidates: map<Name, Entry>, abandoned: map<Name, Entry>, targets: seq<Name>,
                                       children: seq<Name>)
  {
    && |children| == |targets| && Distinct(children)
    && (forall name :: name in children <==> name in candidates && !Hidden(name))
    && (forall i | 0 <= i < |targets| :: targets[i] in abandoned && abandoned[targets[i]] == candidates[children[i]])
  }

  /** Every visible candidate ends under a fresh name, and nothing that was there is lost or replaced. */
  ghost predicate Quarantined<Entry(!new)>(before: Corpus<Entry>, after: Corpus<Entry>, targets: seq<Name>) {
    && Grew(before.abandoned, after.abandoned, targets)
    && OnlyHiddenLeft(before.candidates, after.candidates)
    && exists children :: Carried(before.candidates, after.abandoned, targets, children)
  }

  lemma AllMoved<Entry(!new)>(before: Corpus<Entry>, after: Corpus<Entry>, children: seq<Name>, targets: seq<Name>)
    requires Moved(before, after, children, targets) && |targets| == |children| && Distinct(children)
    requires forall name :: name in children <==> name in before.candidates && !Hidden(name)
    ensures Quarantined(before, after, targets)
  {
    assert children[..|targets|] == children;
    forall t | t in targets
      ensures t !in before.abandoned && t in after.abandoned
    {
      var i :| 0 <= i < |targets| && targets[i] == t;
    }
    assert Carried(before.candidates, after.abandoned, targets, children);
  }

  method QuarantineCorpus<Entry(!new)>(before: Corpus<Entry>, listing: seq<Name>, stamp: string)
    returns (after: Corpus<Entry>, targets: seq<Name>)
    requires ListingOf(listing, before.candidates)
    ensures Quarantined(before, after, targets)
  {
    var children := Visible(listing);
    VisibleMembers(listing);
    after, targets := before, [];
    for i := 0 to |children|
      invariant |targets| == i && Moved(before, after, children, targets)
    {
      var child := children[i];
      var target := FreshTarget(after.abandoned, stamp, child);
      MoveOne(before, after, children, targets, target);
      after := Corpus(after.candidates - {child}, after.abandoned[target := after.candidates[child]]);
      targets := targets + [target];
    }
    AllMoved(before, after, children, targets);
  }

  // ---------------------------------------------------------------- all corpora

  /** A corpus the recovery touches: visible, with its lease free. */
  predicate Recoverable(name: Name, leases: map<Name, Lease>) {
    !Hidden(name) && name in leases && leases[name] == Free
  }

  /** The corpora handled so far are recovered or untouched, all others untouched. */
  ghost predicate Progress<Entry(!new)>(start: map<Name, Corpus<Entry>>, now: map<Name, Corpus<Entry>>,
                                        handled: seq<Name>, leases: map<Name, Lease>, moved: map<Name, seq<Name>>)
  {
    && now.Keys == start.Keys && moved.Keys <= start.Keys
    && forall name | name in now ::
         if name in handled && Recoverable(name, leases)
         then name in moved && Quarantined(start[name], now[name], moved[name])
         else now[name] == start[name] && name !in moved
  }

  /** Targets are reported for the recovered corpora and for nothing else. */
  lemma MovedNames<Entry(!new)>(start: map<Name, Corpus<Entry>>, now: map<Name, Corpus<Entry>>,
                                order: seq<Name>, leases: map<Name, Lease>, moved: map<Name, seq<Name>>)
    requires Progress(start, now, order, leases, moved) && ListingOf(order, start)
    ensures moved.Keys == set name | name in order && Recoverable(name, leases)
  {
  }

  class CorporaDirectory<Entry(!new)> {
    var corpora: map<Name, Corpus<Entry>>

    constructor (corpora: map<Name, Corpus<Entry>>)
      ensures this.corpora == corpora
    {
      this.corpora := corpora;
    }

    /**
     `recover_abandoned_candidates`. The corpora come in sorted order; `listings` are the candidate
     directories as listed under the lease, `stamps` the instants of the moves.
     */
    method Recover(order: seq<Name>, leases: map<Name, Lease>,
                   listings: map<Name, seq<Name>>, stamps: map<Name, string>)
      returns (moved: map<Name, seq<Name>>)
      modifies this
      requires ListingOf(order, corpora)
      requires forall name | name in corpora ::
                 name in listings && ListingOf(listings[name], corpora[name].candidates) && name in stamps
      ensures Progress(old(corpora), corpora, order, leases, moved)
      ensures moved.Keys == set name | name in order && Recoverable(name, leases)
    {
      moved := map[];
      ghost var start := corpora;
      for i := 0 to |order|
        invariant Progress(start, corpora, order[..i], leases, moved)
      {
        var name := order[i];
        assert name in order && order[..i + 1] == order[..i] + [name];
        assert name !in order[..i];
        assert corpora[name] == start[name];
        if Recoverable(name, leases) {
          var after, targets := QuarantineCorpus(corpora[name], listings[name], stamps[name]);
          corpora := corpora[name := after];
          moved := moved[name := targets];
        }
      }
      assert order[..|order|] == order;
      MovedNames(start, corpora, order, leases, moved);
    }
  }

  // ---------------------------------------------------------------- conservation

  function NameSet(names: seq<Name>): set<Name> {
    set name | name in names
  }

  function Entries<Entry>(directory: map<Name, Entry>): nat {
    |directory.Keys|
  }

  lemma AbandonedGrow<Entry(!new)>(before: map<Name, Entry>, after: map<Name, Entry>, targets: seq<Name>)
    requires Grew(before, after, targets)
    ensures Entries(after) == Entries(before) + |targets|
  {
    DistinctSize(targets, NameSet(targets));
    assert after.Keys == before.Keys + NameSet(targets);
    assert before.Keys !! NameSet(targets);
  }

  lemma CandidatesShrink<Entry(!new)>(before: map<Name, Entry>, after: map<Name, Entry>, children: seq<Name>)
    requires Distinct(children) && forall name :: name in children <==> name in before && !Hidden(name)
    requires OnlyHiddenLeft(before, after)
    ensures Entries(before) == Entries(after) + |children|
  {
    DistinctSize(children, NameSet(children));
    assert before.Keys == after.Keys + NameSet(children);
    assert after.Keys !! NameSet(children);
  }

  /** No entry is lost or duplicated: as many more are abandoned as candidates were moved. */
  lemma QuarantineConserves<Entry(!new)>(before: Corpus<Entry>, after: Corpus<Entry>, targets: seq<Name>)
    requires Quarantined(before, after, targets)
    ensures Entries(after.abandoned) == Entries(before.abandoned) + |targets|
    ensures Entries(after.candidates) + |targets| == Entries(before.candidates)
  {
    var children :| Carried(before.candidates, after.abandoned, targets, children);
    AbandonedGrow(before.abandoned, after.abandoned, targets);
    CandidatesShrink(before.candidates, after.candidates, children);
  }

  /** A second recovery of the same corpus finds nothing to move. */
  lemma QuarantineIdempotent<Entry(!new)>(before: Corpus<Entry>, after: Corpus<Entry>, targets: seq<Name>,
                                          again: Corpus<Entry>, more: seq<Name>)
    requires Quarantined(before, after, targets) && Quarantined(after, again, more)
    ensures more == [] && again == after
  {
    var children :| Carried(after.candidates, again.abandoned, more, children);
    NoVisibleChild(before.candidates, after.candidates, children);
    SameEntries(after.abandoned, again.abandoned);
    SameCandidates(before.candidates, after.candidates, again.candidates);
  }

  lemma NoVisibleChild<Entry(!new)>(before: map<Name, Entry>, after: map<Name, Entry>, children: seq<Name>)
    requires OnlyHiddenLeft(before, after) && Distinct(children)
    requires forall name :: name in children <==> name in after && !Hidden(name)
    ensures children == []
  {
    DistinctSize(children, {});
  }

  lemma SameEntries<Entry(!new)>(before: map<Name, Entry>, after: map<Name, Entry>)
    requires Grew(before, after, [])
    ensures after == before
  {
  }

  lemma SameCandidates<Entry(!new)>(first: map<Name, Entry>, before: map<Name, Entry>, after: map<Name, Entry>)
    requires OnlyHiddenLeft(first, before) && OnlyHiddenLeft(before, after)
    ensures after == before
  {
  }
}
