/**
 * What the discovery loop promises, stated over its specification
 * (`Discovery.Select` / `Discovery.Run`, which `Discovery.Discover` is proved
 * to compute).
 */
module DiscoveryProperties {
  import opened Wrappers
  import opened Rds
  import opened Discovery

  /**
   * Reference definition of selection, independent of the loop: with no
   * filter every instance is wanted; with a parsed filter an instance is
   * wanted when its tag lookup succeeds and some pair matches its tags.
   */
  predicate Wanted(db: DbInstance, tags: Option<TagsArgument>, listTags: string -> TagLookup) {
    match tags
    case None => true
    case Some(Unparseable) => false
    case Some(Parsed(pairs)) =>
      && db.dbInstanceArn.Some?
      && listTags(db.dbInstanceArn.value).Listed?
      && Selected(pairs, TagsOf(listTags(db.dbInstanceArn.value).message))
  }

  /** With a filter, the steps before the match test fail: parsing, the ARN, or the tag lookup. */
  predicate LookupFails(db: DbInstance, tags: Option<TagsArgument>, listTags: string -> TagLookup) {
    && tags.Some?
    && (|| tags.value.Unparseable?
        || db.dbInstanceArn.None?
        || listTags(db.dbInstanceArn.value).LookupFailed?)
  }

  /**
   * One instance fails the run exactly when a step before the match test
   * fails, or it is wanted but lacks a field of its entry; an unwanted
   * instance with missing identifier or endpoint is skipped without failing.
   * When it succeeds it contributes one entry iff it is wanted.
   */
  lemma StepOutcome(db: DbInstance, tags: Option<TagsArgument>, listTags: string -> TagLookup)
    ensures Step(db, tags, listTags).Failure? <==>
            LookupFails(db, tags, listTags) || (Wanted(db, tags, listTags) && !Complete(db))
    ensures Step(db, tags, listTags).Success? ==>
            (|Step(db, tags, listTags).value| == 1 <==> Wanted(db, tags, listTags))
  {
  }

  /** With no filter the output projects every instance, in order, with its fields unchanged. */
  lemma {:induction false} NoFilterProjectsEveryInstance(dbs: seq<DbInstance>, listTags: string -> TagLookup)
    ensures Select(dbs, None, listTags).Success? <==> forall k :: 0 <= k < |dbs| ==> Complete(dbs[k])
    ensures Select(dbs, None, listTags).Success? ==>
            && |Select(dbs, None, listTags).value| == |dbs|
            && forall k :: 0 <= k < |dbs| ==> Projects(Select(dbs, None, listTags).value[k], dbs[k])
    decreases |dbs|
  {
    if dbs != [] {
      var init := dbs[..|dbs| - 1];
      NoFilterProjectsEveryInstance(init, listTags);
      assert forall k :: 0 <= k < |init| ==> init[k] == dbs[k];
    }
  }

  /** The run succeeds exactly when every instance's step succeeds. */
  lemma {:induction false} SucceedsIffEveryStepSucceeds(dbs: seq<DbInstance>, tags: Option<TagsArgument>,
                                                       listTags: string -> TagLookup)
    ensures Select(dbs, tags, listTags).Success? <==>
            forall k :: 0 <= k < |dbs| ==> Step(dbs[k], tags, listTags).Success?
    decreases |dbs|
  {
    if dbs != [] {
      var init := dbs[..|dbs| - 1];
      SucceedsIffEveryStepSucceeds(init, tags, listTags);
      assert forall k :: 0 <= k < |init| ==> init[k] == dbs[k];
    }
  }

  /**
   * Fail-fast: the first failing instance decides the outcome. Entries
   * already gathered from earlier instances are discarded and later
   * instances are never considered.
   */
  lemma {:induction false} FirstFailureAborts(dbs: seq<DbInstance>, i: nat, tags: Option<TagsArgument>,
                                             listTags: string -> TagLookup)
    requires i < |dbs|
    requires forall k :: 0 <= k < i ==> Step(dbs[k], tags, listTags).Success?
    requires Step(dbs[i], tags, listTags).Failure?
    ensures Select(dbs, tags, listTags) == Failure(Step(dbs[i], tags, listTags).error)
  {
    var init := dbs[..i];
    SucceedsIffEveryStepSucceeds(init, tags, listTags);
    assert dbs[..i + 1][..i] == init;
    FailureSticks(dbs, i + 1, tags, listTags);
  }

  /** Conversely, a failed run names the error of an instance whose predecessors all succeeded. */
  lemma {:induction false} FailureHasFirstCause(dbs: seq<DbInstance>, tags: Option<TagsArgument>,
                                               listTags: string -> TagLookup)
    returns (i: nat)
    requires Select(dbs, tags, listTags).Failure?
    ensures i < |dbs|
    ensures forall k :: 0 <= k < i ==> Step(dbs[k], tags, listTags).Success?
    ensures Step(dbs[i], tags, listTags) == Failure(Select(dbs, tags, listTags).error)
    decreases |dbs|
  {
    var init := dbs[..|dbs| - 1];
    assert forall k :: 0 <= k < |init| ==> init[k] == dbs[k];
    if Select(init, tags, listTags).Failure? {
      i := FailureHasFirstCause(init, tags, listTags);
    } else {
      SucceedsIffEveryStepSucceeds(init, tags, listTags);
      i := |dbs| - 1;
    }
  }

  /**
   * The output is an order-preserving subsequence of the projected
   * instances: entry k comes from instance idx[k], the indices strictly
   * increase (so no instance contributes twice and nothing is reordered),
   * each such instance is wanted, and every wanted instance is present.
   */
  lemma {:induction false} OutputIsOrderedSelection(dbs: seq<DbInstance>, tags: Option<TagsArgument>,
                                                   listTags: string -> TagLookup, r: seq<DiscoveryEntry>)
    returns (idx: seq<nat>)
    requires Select(dbs, tags, listTags) == Success(r)
    ensures |idx| == |r|
    ensures forall k :: 0 <= k < |idx| ==>
              idx[k] < |dbs| && Wanted(dbs[idx[k]], tags, listTags) && Projects(r[k], dbs[idx[k]])
    ensures forall k, l :: 0 <= k < l < |idx| ==> idx[k] < idx[l]
    ensures forall i :: 0 <= i < |dbs| && Wanted(dbs[i], tags, listTags) ==> i in idx
    decreases |dbs|
  {
    if dbs == [] {
      idx := [];
    } else {
      var n := |dbs| - 1;
      var init := dbs[..n];
      assert forall k :: 0 <= k < n ==> init[k] == dbs[k];
      var prefix := Select(init, tags, listTags).value;
      var contribution := Step(dbs[n], tags, listTags).value;
      var prior := OutputIsOrderedSelection(init, tags, listTags, prefix);
      StepOutcome(dbs[n], tags, listTags);
      if contribution == [] {
        idx := prior;
        assert r == prefix;
      } else {
        idx := prior + [n];
        assert r == prefix + [contribution[0]];
      }
    }
  }

  /** A tag list without the tags whose key or value is missing. */
  function KeyValueTags(tagList: seq<Tag>): (r: seq<Tag>)
    ensures forall t :: t in r <==> t in tagList && t.key.Some? && t.value.Some?
    decreases |tagList|
  {
    if tagList == [] then []
    else if tagList[0].key.Some? && tagList[0].value.Some? then [tagList[0]] + KeyValueTags(tagList[1..])
    else KeyValueTags(tagList[1..])
  }

  /** A tag whose key or value is missing never matches: dropping such tags changes no selection. */
  lemma PartialTagsNeverMatch(pairs: seq<ArgTag>, tagList: seq<Tag>)
    ensures Selected(pairs, tagList) <==> Selected(pairs, KeyValueTags(tagList))
  {
  }

  /** An empty filter list `[]` selects nothing (every tag lookup still happens and can fail). */
  lemma {:induction false} EmptyFilterSelectsNothing(dbs: seq<DbInstance>, listTags: string -> TagLookup)
    ensures Select(dbs, Some(Parsed([])), listTags).Success? ==> Select(dbs, Some(Parsed([])), listTags).value == []
    decreases |dbs|
  {
    if dbs != [] {
      EmptyFilterSelectsNothing(dbs[..|dbs| - 1], listTags);
    }
  }

  /** A malformed filter fails the run only when at least one instance is enumerated. */
  lemma {:induction false} MalformedFilterNeedsAnInstance(dbs: seq<DbInstance>, listTags: string -> TagLookup)
    ensures Select(dbs, Some(Unparseable), listTags) ==
            if dbs == [] then Success([]) else Failure(MalformedFilter)
    decreases |dbs|
  {
    if |dbs| > 1 {
      MalformedFilterNeedsAnInstance(dbs[..|dbs| - 1], listTags);
    }
  }

  /** A response without an instance list yields a document with empty `data`, whatever the filter. */
  lemma MissingInstanceListGivesEmptyData(tags: Option<TagsArgument>, listTags: string -> TagLookup)
    ensures Run(DbInstanceMessage(None), tags, listTags) == Success(DiscoveryData([]))
  {
  }

  /** A successful lookup without a tag list excludes the instance. */
  lemma MissingTagListExcludes(db: DbInstance, pairs: seq<ArgTag>, listTags: string -> TagLookup)
    requires db.dbInstanceArn.Some?
    requires listTags(db.dbInstanceArn.value) == Listed(TagListMessage(None))
    ensures Step(db, Some(Parsed(pairs)), listTags) == Success([])
  {
  }
}
