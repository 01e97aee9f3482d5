/**
 * The selection-and-projection loop of the RDS discovery tool: walk the
 * enumerated instances in order, optionally fetch each one's tags and test
 * them against the filter pairs, and project each selected instance into a
 * discovery entry. Every missing datum the tool unwraps aborts the whole run,
 * which is modelled as a `Failure`: no document is emitted.
 */
module Discovery {
  import opened Wrappers
  import opened Rds

  /** One `{key, value}` pair of the tag filter given on the command line. */
  datatype ArgTag = ArgTag(key: string, value: string)

  /**
   * The outcome of parsing the command-line tag filter. The tool parses the
   * JSON text inside the loop, once per instance, so a malformed filter is
   * carried as data and fails the run only when an instance is visited.
   */
  datatype TagsArgument = Parsed(pairs: seq<ArgTag>) | Unparseable

  /** One output record. */
  datatype DiscoveryEntry = DiscoveryEntry(dbInstanceIdentifier: string, address: string, port: int64)

  /** The output document. */
  datatype DiscoveryData = DiscoveryData(data: seq<DiscoveryEntry>)

  /** The literal keys under which an entry's fields are serialized. */
  const IdentifierKey: string := "{#DB}"
  const EndpointKey: string := "{#DB_ENDPOINT}"
  const PortKey: string := "{#DB_PORT}"

  /** Why a run stops without printing a document, one reason per unwrap in the loop. */
  datatype Error =
    | MalformedFilter           // the tag-filter JSON does not parse
    | MissingArn                // a filtered instance has no ARN
    | TagLookupFailed(arn: string)  // "list tags for resource" failed for that ARN
    | MissingIdentifier         // a selected instance has no identifier
    | MissingEndpoint           // a selected instance has no endpoint
    | MissingAddress            // a selected instance's endpoint has no address
    | MissingPort               // a selected instance's endpoint has no port

  /** The instance carries every field a discovery entry needs. */
  predicate Complete(db: DbInstance) {
    && db.dbInstanceIdentifier.Some?
    && db.endpoint.Some?
    && db.endpoint.value.address.Some?
    && db.endpoint.value.port.Some?
  }

  /** `e` holds exactly the identifier, address and port of `db`, unchanged. */
  predicate Projects(e: DiscoveryEntry, db: DbInstance) {
    && db.dbInstanceIdentifier == Some(e.dbInstanceIdentifier)
    && db.endpoint.Some?
    && db.endpoint.value.address == Some(e.address)
    && db.endpoint.value.port == Some(e.port)
  }

  /**
   * Projects an instance into an entry, unwrapping identifier, endpoint,
   * address and port in that order; the first missing one aborts the run.
   */
  function Project(db: DbInstance): (r: Result<DiscoveryEntry, Error>)
    ensures r.Success? <==> Complete(db)
    ensures r.Success? ==> Projects(r.value, db)
  {
    if db.dbInstanceIdentifier.None? then Failure(MissingIdentifier)
    else if db.endpoint.None? then Failure(MissingEndpoint)
    else if db.endpoint.value.address.None? then Failure(MissingAddress)
    else if db.endpoint.value.port.None? then Failure(MissingPort)
    else Success(DiscoveryEntry(db.dbInstanceIdentifier.value, db.endpoint.value.address.value,
                                db.endpoint.value.port.value))
  }

  /**
   * The filter pair occurs in the tag list: tags compare field by field, so
   * some tag must carry the pair's key and its value, both present.
   */
  function PairMatches(pair: ArgTag, tagList: seq<Tag>): (r: bool)
    ensures r <==> exists i :: 0 <= i < |tagList| && tagList[i].key == Some(pair.key) && tagList[i].value == Some(pair.value)
  {
    Tag(Some(pair.key), Some(pair.value)) in tagList
  }

  /**
   * Some filter pair matches: the pairs are combined with OR, so one pair
   * and one tag agreeing suffice, and the empty filter selects nothing.
   */
  function Selected(pairs: seq<ArgTag>, tagList: seq<Tag>): (r: bool)
    ensures r <==> exists k, i :: 0 <= k < |pairs| && 0 <= i < |tagList| &&
                                  tagList[i] == Tag(Some(pairs[k].key), Some(pairs[k].value))
    ensures pairs == [] ==> !r
  {
    exists k :: 0 <= k < |pairs| && PairMatches(pairs[k], tagList)
  }

  /** The tag list of a successful lookup; a response without a tag list counts as no tags. */
  function TagsOf(message: TagListMessage): (r: seq<Tag>)
    ensures message.tagList.None? ==> r == []
    ensures forall t :: t in r <==> message.tagList.Some? && t in message.tagList.value
  {
    message.tagList.GetOr([])
  }

  /**
   * The specification of one loop iteration: the entries the instance
   * contributes (none or one), or the error that ends the run.
   */
  function Step(db: DbInstance, tags: Option<TagsArgument>, listTags: string -> TagLookup)
    : (r: Result<seq<DiscoveryEntry>, Error>)
    ensures r.Success? ==> |r.value| <= 1
    ensures r.Success? && |r.value| == 1 ==> Projects(r.value[0], db)
  {
    match tags
    case None =>
      (match Project(db)
       case Failure(e) => Failure(e)
       case Success(entry) => Success([entry]))
    case Some(Unparseable) => Failure(MalformedFilter)
    case Some(Parsed(pairs)) =>
      if db.dbInstanceArn.None? then Failure(MissingArn)
      else
        match listTags(db.dbInstanceArn.value)
        case LookupFailed => Failure(TagLookupFailed(db.dbInstanceArn.value))
        case Listed(message) =>
          if !Selected(pairs, TagsOf(message)) then Success([])
          else
            match Project(db)
            case Failure(e) => Failure(e)
            case Success(entry) => Success([entry])
  }

  /**
   * The specification of the loop over `dbs`: the entries accumulated after
   * visiting every instance in order, or the first error met.
   */
  function Select(dbs: seq<DbInstance>, tags: Option<TagsArgument>, listTags: string -> TagLookup)
    : (r: Result<seq<DiscoveryEntry>, Error>)
    ensures r.Success? ==> |r.value| <= |dbs|
    decreases |dbs|
  {
    if dbs == [] then Success([])
    else
      match Select(dbs[..|dbs| - 1], tags, listTags)
      case Failure(e) => Failure(e)
      case Success(data) =>
        match Step(dbs[|dbs| - 1], tags, listTags)
        case Failure(e) => Failure(e)
        case Success(contribution) => Success(data + contribution)
  }

  /** The instances to visit: a response without an instance list counts as none. */
  function InstancesOf(response: DbInstanceMessage): (r: seq<DbInstance>)
    ensures response.dbInstances.None? ==> r == []
    ensures response.dbInstances.Some? ==>
              |r| == |response.dbInstances.value| &&
              forall i :: 0 <= i < |r| ==> r[i] == response.dbInstances.value[i]
  {
    response.dbInstances.GetOr([])
  }

  /** The specification of the whole loop: the document printed, or the error that aborts the run. */
  function Run(response: DbInstanceMessage, tags: Option<TagsArgument>, listTags: string -> TagLookup)
    : (r: Result<DiscoveryData, Error>)
    ensures r.Success? ==> |r.value.data| <= |InstancesOf(response)|
  {
    match Select(InstancesOf(response), tags, listTags)
    case Failure(e) => Failure(e)
    case Success(data) => Success(DiscoveryData(data))
  }

  /** Once a prefix of the instances has failed, the whole loop fails with the same error. */
  lemma {:induction false} FailureSticks(dbs: seq<DbInstance>, i: nat, tags: Option<TagsArgument>,
                                        listTags: string -> TagLookup)
    requires i <= |dbs|
    requires Select(dbs[..i], tags, listTags).Failure?
    ensures Select(dbs, tags, listTags) == Select(dbs[..i], tags, listTags)
    decreases |dbs| - i
  {
    if i < |dbs| {
      assert dbs[..i + 1][..i] == dbs[..i];
      FailureSticks(dbs, i + 1, tags, listTags);
    } else {
      assert dbs[..i] == dbs;
    }
  }

  /**
   * One iteration of the loop: visits instance `db` and returns `data` with
   * the instance's entry pushed when it is selected, or the error that
   * aborts the run. With a filter, the filter pairs are tried in order and
   * the first match pushes the entry and stops the search.
   */
  method VisitInstance(db: DbInstance, tags: Option<TagsArgument>, listTags: string -> TagLookup,
                       data: seq<DiscoveryEntry>)
    returns (r: Result<seq<DiscoveryEntry>, Error>)
    ensures r == match Step(db, tags, listTags)
                 case Failure(e) => Failure(e)
                 case Success(contribution) => Success(data + contribution)
  {
    if tags.None? {
      var entry := Project(db);
      if entry.Failure? {
        return Failure(entry.error);
      }
      return Success(data + [entry.value]);
    }
    if tags.value.Unparseable? {
      return Failure(MalformedFilter);
    }
    var pairs := tags.value.pairs;
    if db.dbInstanceArn.None? {
      return Failure(MissingArn);
    }
    var lookup := listTags(db.dbInstanceArn.value);
    if lookup.LookupFailed? {
      return Failure(TagLookupFailed(db.dbInstanceArn.value));
    }
    var tagList := TagsOf(lookup.message);
    var acc := data;
    var j := 0;
    ghost var matched := false;
    while j < |pairs|
      invariant j <= |pairs|
      invariant !matched && acc == data
      invariant forall k :: 0 <= k < j ==> !PairMatches(pairs[k], tagList)
    {
      if PairMatches(pairs[j], tagList) {
        var entry := Project(db);
        if entry.Failure? {
          return Failure(entry.error);
        }
        acc := acc + [entry.value];
        matched := true;
        break;
      }
      j := j + 1;
    }
    // `matched` tells which way the loop ended: by the break after a push, or with no pair matching.
    if !matched {
      assert !Selected(pairs, tagList);
      assert data + [] == data;
    }
    return Success(acc);
  }

  /**
   * The loop of the tool's main routine: visits the enumerated instances in
   * order, pushing entries onto an accumulator, and stops at the first error.
   */
  method Discover(response: DbInstanceMessage, tags: Option<TagsArgument>, listTags: string -> TagLookup)
    returns (out: Result<DiscoveryData, Error>)
    ensures out == Run(response, tags, listTags)
  {
    var instances := response.dbInstances.GetOr([]);
    var data: seq<DiscoveryEntry> := [];
    var i := 0;
    while i < |instances|
      invariant i <= |instances|
      invariant Select(instances[..i], tags, listTags) == Success(data)
    {
      assert instances[..i + 1][..i] == instances[..i];
      var next := VisitInstance(instances[i], tags, listTags, data);
      if next.Failure? {
        FailureSticks(instances, i + 1, tags, listTags);
        return Failure(next.error);
      }
      data := next.value;
      i := i + 1;
    }
    assert instances[..i] == instances;
    return Success(DiscoveryData(data));
  }
}
