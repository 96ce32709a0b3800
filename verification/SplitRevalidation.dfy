/**
 Validating a stale cached split scan.

 Partition 0 asks the worker, group by group, whether the cached rows still hold.
 Only a unanimous answer lets the cached rows out; otherwise they are dropped and
 partition 0 redeems every token of the plan itself.
 */
module SplitRevalidation {
  import opened Wrappers
  import opened Packing

  type Row = int

  datatype Control = Control(notModified: bool, policy: nat)

  /** The worker's answer to the conditional request for one group. */
  datatype Reply = Failed | Answer(rows: nat, control: Option<Control>)

  /** How a stream of rows to the consumer ends. */
  datatype Ending = Complete | FailsAfter(rows: nat) | DropsAfter(rows: nat)

  /** Everything outside of this scan. */
  datatype Surroundings = Surroundings(
    admits: bool,
    refreshes: bool,
    removes: bool,
    replay: Ending,
    redeem: Ending,
    claimsNotModified: bool,
    background: bool)

  datatype Finish = Finished | Cancelled

  datatype Wave = Broken | Done(votes: nat, agreed: Option<Control>, rerun: bool)

  predicate CleanVote(reply: Reply) {
    reply.Answer? && reply.rows == 0 && reply.control.Some? && reply.control.value.notModified
  }

  /** A worker failure, or rows together with `not_modified`. */
  predicate BrokenReply(reply: Reply) {
    reply.Failed? || (reply.control.Some? && reply.control.value.notModified && reply.rows != 0)
  }

  predicate Asked(groups: seq<SplitGroup>, i: int) {
    0 <= i < |groups| && groups[i].tokens != []
  }

  /** The first `k` groups that have tokens all vote for keeping the entry under `control`. */
  predicate AgreeUpTo(groups: seq<SplitGroup>, replies: seq<Reply>, control: Option<Control>, k: nat)
    requires |replies| == |groups|
  {
    forall i :: 0 <= i < k && Asked(groups, i) ==> CleanVote(replies[i]) && replies[i].control == control
  }

  predicate SomeAsked(groups: seq<SplitGroup>, k: nat) {
    exists i :: 0 <= i < k && Asked(groups, i)
  }

  /** How many of the first `k` groups are asked. */
  function AskedUpTo(groups: seq<SplitGroup>, k: nat): (n: nat)
    requires k <= |groups|
    ensures n == 0 <==> !SomeAsked(groups, k)
  {
    if k == 0 then 0
    else if groups[k - 1].tokens == [] then AskedUpTo(groups, k - 1)
    else assert Asked(groups, k - 1); AskedUpTo(groups, k - 1) + 1
  }

  /** Group `k` is the first whose vote is not the same clean one as all before. */
  predicate BreaksAt(groups: seq<SplitGroup>, replies: seq<Reply>, control: Option<Control>, k: nat)
    requires |replies| == |groups|
  {
    && k < |groups| && Asked(groups, k) && AgreeUpTo(groups, replies, control, k)
    && !(CleanVote(replies[k]) && (SomeAsked(groups, k) ==> replies[k].control == control))
  }

  // ---------------------------------------------------------------------
  // The four cases of a validation wave

  /** All groups with tokens agree, and there is one. */
  ghost predicate Unanimous(groups: seq<SplitGroup>, replies: seq<Reply>)
    requires |replies| == |groups|
  {
    SomeAsked(groups, |groups|) && exists c :: AgreeUpTo(groups, replies, c, |groups|)
  }

  /** After some votes that agree, a group answers with fresh rows or another policy. */
  ghost predicate Mixed(groups: seq<SplitGroup>, replies: seq<Reply>)
    requires |replies| == |groups|
  {
    exists c, k: nat :: BreaksAt(groups, replies, c, k) && SomeAsked(groups, k) && !BrokenReply(replies[k])
  }

  class SplitScan {
    const groups: seq<SplitGroup>
    const cached: seq<Row>
    const contents: Token -> seq<Row>
    /** What the consumer has received, from all partitions. */
    var emitted: seq<Row>
    /** The tokens redeemed without conditions, in order. */
    var redeemed: seq<Token>
    var removed: bool
    var refreshed: bool

    constructor (groups: seq<SplitGroup>, cached: seq<Row>, contents: Token -> seq<Row>)
      ensures this.groups == groups && this.cached == cached && this.contents == contents
      ensures emitted == [] && redeemed == [] && !removed && !refreshed
    {
      this.groups, this.cached, this.contents := groups, cached, contents;
      emitted, redeemed, removed, refreshed := [], [], false, false;
    }

    /** Ask group by group, as long as all agree. No row of this wave is kept. */
    method ValidationWave(replies: seq<Reply>) returns (wave: Wave)
      requires |replies| == |groups|
      ensures wave.Broken? ==> exists c, k: nat :: BreaksAt(groups, replies, c, k) && BrokenReply(replies[k])
      ensures wave.Done? && !wave.rerun ==>
        && AgreeUpTo(groups, replies, wave.agreed, |groups|)
        && wave.votes == AskedUpTo(groups, |groups|)
        && (wave.votes == 0 <==> wave.agreed.None?)
      // A clean vote under another policy is still counted.
      ensures wave.Done? && wave.rerun ==> exists k: nat ::
        && BreaksAt(groups, replies, wave.agreed, k) && !BrokenReply(replies[k])
        && wave.votes == AskedUpTo(groups, k) + if CleanVote(replies[k]) then 1 else 0
    {
      var agreed: Option<Control> := None;
      var votes := 0;
      for i := 0 to |groups|
        invariant AgreeUpTo(groups, replies, agreed, i)
        invariant votes == AskedUpTo(groups, i)
        invariant votes == 0 <==> agreed.None?
      {
        if groups[i].tokens == [] {
          assert !Asked(groups, i);
          continue;
        }
        assert Asked(groups, i);
        if replies[i].Failed? {
          assert BreaksAt(groups, replies, agreed, i);
          return Broken;
        }
        var control := replies[i].control;
        if control.Some? && control.value.notModified && replies[i].rows != 0 {
          assert BreaksAt(groups, replies, agreed, i);
          return Broken;
        }
        if control.None? || !control.value.notModified {
          assert BreaksAt(groups, replies, agreed, i);
          return Done(votes, agreed, true);
        }
        votes := votes + 1;
        if agreed.Some? && agreed != control {
          assert BreaksAt(groups, replies, agreed, i);
          return Done(votes, agreed, true);
        }
        agreed := control;
      }
      wave := Done(votes, agreed, false);
    }

    /** Send rows to the consumer until it drops out or the source fails. */
    method Send(rows: seq<Row>, ending: Ending) returns (finish: Ending)
      modifies this`emitted
      ensures finish.Complete? ==> emitted == old(emitted) + rows
      ensures finish.Complete? <==> ending.Complete? || ending.rows >= |rows|
      ensures !finish.Complete? ==> finish == ending && emitted == old(emitted) + rows[..ending.rows]
    {
      for i := 0 to |rows|
        invariant emitted == old(emitted) + rows[..i]
        invariant ending.Complete? || i <= ending.rows
      {
        if !ending.Complete? && i == ending.rows {
          return ending;
        }
        assert rows[..i + 1] == rows[..i] + [rows[i]];
        emitted := emitted + [rows[i]];
      }
      assert rows[..|rows|] == rows;
      finish := Complete;
    }

    function RowsFor(tokens: seq<Token>): seq<Row> {
      if tokens == [] then [] else RowsFor(tokens[..|tokens| - 1]) + contents(tokens[|tokens| - 1])
    }

    /** Redeem tokens without conditions. */
    method Redeem(tokens: seq<Token>, around: Surroundings) returns (r: Result<Finish, string>)
      modifies this`emitted, this`redeemed
      ensures redeemed == old(redeemed) + tokens
      ensures r == Ok(Finished) <==> SendsAll(around.redeem, RowsFor(tokens)) && !around.claimsNotModified
      ensures r == Ok(Finished) ==> emitted == old(emitted) + RowsFor(tokens)
    {
      redeemed := redeemed + tokens;
      var finish := Send(RowsFor(tokens), around.redeem);
      if finish.FailsAfter? {
        return Err("worker error");
      }
      if finish.DropsAfter? {
        return Ok(Cancelled);
      }
      if around.claimsNotModified {
        return Err("returned not_modified without a conditional request");
      }
      r := Ok(Finished);
    }

    /** Accept the unanimous vote: extend the entry's life and replay it. */
    method Replay(around: Surroundings) returns (r: Result<Finish, string>)
      modifies this`emitted, this`refreshed
      ensures refreshed <==> old(refreshed) || around.refreshes
      ensures r == Ok(Finished) <==> around.refreshes && (around.background || SendsAll(around.replay, cached))
      ensures r.Ok? ==> r.value == Finished
      ensures r.Ok? ==> emitted == if around.background then old(emitted) else old(emitted) + cached
    {
      if !around.refreshes {
        return Err("the selected validator generation changed");
      }
      refreshed := true;
      if !around.background {
        var finish := Send(cached, around.replay);
        if !finish.Complete? {
          return Err("cached revalidation consumer dropped");
        }
      }
      r := Ok(Finished);
    }

    /** Reject the entry: remove it and run every split. */
    method Rerun(around: Surroundings) returns (r: Result<Finish, string>)
      modifies this`emitted, this`redeemed, this`removed
      ensures removed <==> old(removed) || around.removes
      ensures r == Ok(Finished) <==>
        around.removes && (AllTokens(groups) == [] || (SendsAll(around.redeem, RowsFor(AllTokens(groups))) && !around.claimsNotModified))
      ensures r == Ok(Finished) ==> emitted == old(emitted) + RowsFor(AllTokens(groups))
      ensures redeemed == old(redeemed) + if around.removes then AllTokens(groups) else []
    {
      if !around.removes {
        return Err("could not remove the selected validator generation");
      }
      removed := true;
      var tokens: seq<Token> := [];
      for i := 0 to |groups|
        invariant tokens == AllTokens(groups[..i])
      {
        assert groups[..i + 1][..i] == groups[..i];
        tokens := tokens + groups[i].tokens;
      }
      assert groups[..|groups|] == groups;
      if tokens == [] {
        return Ok(Finished);
      }
      r := Redeem(tokens, around);
    }

    /** One partition's part in a scan whose cached result is stale. */
    method Partition(p: nat, replies: seq<Reply>, around: Surroundings) returns (r: Result<Finish, string>)
      requires |replies| == |groups|
      modifies this
      ensures p > 0 ==> r == Ok(Finished) && SameState()
      ensures p == 0 && groups == [] ==>
        (r == Ok(Finished) <==> around.removes) && emitted == old(emitted) && redeemed == old(redeemed)
        && (removed <==> old(removed) || around.removes) && refreshed == old(refreshed)
      ensures p == 0 && Unanimous(groups, replies) && around.admits ==>
        (r == Ok(Finished) <==> around.refreshes && (around.background || SendsAll(around.replay, cached)))
        && redeemed == old(redeemed) && removed == old(removed)
        && (r.Ok? ==> refreshed && emitted == if around.background then old(emitted) else old(emitted) + cached)
      ensures p == 0 && (Mixed(groups, replies) || (Unanimous(groups, replies) && !around.admits)) ==>
        (r == Ok(Finished) <==> around.removes && SendsAll(around.redeem, RowsFor(AllTokens(groups))) && !around.claimsNotModified)
        && refreshed == old(refreshed)
        && (r == Ok(Finished) ==> removed && redeemed == old(redeemed) + AllTokens(groups)
                                  && emitted == old(emitted) + RowsFor(AllTokens(groups)))
      ensures p == 0 && groups != [] && !Unanimous(groups, replies) && !Mixed(groups, replies) ==> r.Err? && SameState()
    {
      if p > 0 {
        return Ok(Finished);
      }
      var wave := ValidationWave(replies);
      WaveCases(groups, replies, wave);
      if wave.Broken? {
        return Err("split validation failed");
      }
      if wave.votes == 0 && groups == [] {
        if !around.removes {
          return Err("could not remove the selected validator generation");
        }
        removed := true;
        return Ok(Finished);
      }
      if wave.votes == 0 {
        return Err("no executed split group to validate");
      }
      TokensExist(groups);
      if !wave.rerun && around.admits {
        r := Replay(around);
      } else {
        r := Rerun(around);
      }
    }

    twostate predicate SameState()
      reads this
    {
      emitted == old(emitted) && redeemed == old(redeemed) && removed == old(removed) && refreshed == old(refreshed)
    }
  }

  predicate SendsAll(ending: Ending, rows: seq<Row>) {
    ending.Complete? || ending.rows >= |rows|
  }

  lemma {:induction false} TokensExist(groups: seq<SplitGroup>)
    ensures AllTokens(groups) == [] <==> !SomeAsked(groups, |groups|)
  {
    if groups != [] {
      var n := |groups| - 1;
      TokensExist(groups[..n]);
      assert forall i :: 0 <= i < n ==> (Asked(groups, i) <==> Asked(groups[..n], i));
      assert Asked(groups, n) <==> groups[n].tokens != [];
      if SomeAsked(groups[..n], n) {
        var i :| 0 <= i < n && Asked(groups[..n], i);
        assert Asked(groups, i);
      }
    }
  }

  // The wave's verdict, in terms of the replies alone.
  lemma WaveCases(groups: seq<SplitGroup>, replies: seq<Reply>, wave: Wave)
    requires |replies| == |groups|
    requires wave.Broken? ==> exists c, k: nat :: BreaksAt(groups, replies, c, k) && BrokenReply(replies[k])
    requires wave.Done? && !wave.rerun ==>
      && AgreeUpTo(groups, replies, wave.agreed, |groups|)
      && wave.votes == AskedUpTo(groups, |groups|)
    requires wave.Done? && wave.rerun ==> exists k: nat ::
      && BreaksAt(groups, replies, wave.agreed, k) && !BrokenReply(replies[k])
      && wave.votes == AskedUpTo(groups, k) + if CleanVote(replies[k]) then 1 else 0
    ensures Unanimous(groups, replies) <==> wave.Done? && !wave.rerun && wave.votes > 0
    ensures Mixed(groups, replies) <==> wave.Done? && wave.rerun && wave.votes > 0
  {
  }

  // A group that answers with fresh rows or another policy leads to a rerun exactly
  // when some group was asked before it; a fresh first answer is an error.
  lemma RerunNeedsAnEarlierVote(groups: seq<SplitGroup>, replies: seq<Reply>, c: Option<Control>, k: nat)
    requires |replies| == |groups| && BreaksAt(groups, replies, c, k)
    ensures Mixed(groups, replies) <==> !BrokenReply(replies[k]) && SomeAsked(groups, k)
  {
  }

  lemma FreshFirstAnswerIsAnError()
    ensures var groups, replies := [SplitGroup([0], [[7]], Absent, Absent)], [Answer(5, None)];
      BreaksAt(groups, replies, None, 0) && !BrokenReply(replies[0]) && !Unanimous(groups, replies) && !Mixed(groups, replies)
  {
  }

  // ---------------------------------------------------------------------
  // All partitions together

  ghost predicate EachOnce(order: seq<nat>, partitions: nat) {
    && (forall p: nat :: p < partitions <==> p in order)
    && forall i, j :: 0 <= i < j < |order| ==> order[i] != order[j]
  }

  /**
   Run every partition, in any order, until one fails. If all succeed the consumer
   has the cached rows once, or every row of every split once, or nothing because
   there was no group at all; never a mixture.
   */
  method AllPartitions(scan: SplitScan, order: seq<nat>, partitions: nat, replies: seq<Reply>, around: Surroundings)
    returns (ok: bool)
    requires partitions > 0 && EachOnce(order, partitions) && |replies| == |scan.groups|
    requires !around.background
    requires scan.emitted == [] && scan.redeemed == []
    modifies scan
    ensures ok ==> OneOutcome(scan, replies, around)
  {
    ghost var ran := false;
    for i := 0 to |order|
      invariant ran <==> 0 in order[..i]
      invariant !ran ==> scan.emitted == [] && scan.redeemed == []
      invariant ran ==> OneOutcome(scan, replies, around)
    {
      assert order[..i + 1] == order[..i] + [order[i]];
      NotBefore(order, i);
      if order[i] == 0 {
        ran := true;
      }
      var r := scan.Partition(order[i], replies, around);
      if r != Ok(Finished) {
        return false;
      }
      assert [] + AllTokens(scan.groups) == AllTokens(scan.groups) && [] + scan.cached == scan.cached;
      assert [] + scan.RowsFor(AllTokens(scan.groups)) == scan.RowsFor(AllTokens(scan.groups));
    }
    assert order[..|order|] == order;
    ok := true;
  }

  lemma NotBefore(order: seq<nat>, i: nat)
    requires i < |order| && forall i, j :: 0 <= i < j < |order| ==> order[i] != order[j]
    ensures order[i] !in order[..i]
  {
  }

  /**
   The consumer's rows and the tokens redeemed for them. By
   `Packing.TokensAreConserved` the groups' tokens are those of the plan, each once.
   */
  ghost predicate OneOutcome(scan: SplitScan, replies: seq<Reply>, around: Surroundings)
    requires |replies| == |scan.groups|
    reads scan
  {
    || (scan.groups == [] && scan.emitted == [] && scan.redeemed == [] && scan.removed)
    || (Unanimous(scan.groups, replies) && around.admits && scan.emitted == scan.cached && scan.redeemed == [] && scan.refreshed)
    || ((Mixed(scan.groups, replies) || (Unanimous(scan.groups, replies) && !around.admits))
        && scan.emitted == scan.RowsFor(scan.redeemed) && scan.redeemed == AllTokens(scan.groups) && scan.removed)
  }
}
