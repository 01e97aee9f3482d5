# RDS discovery loop, in Dafny

This project models the core of `rs-zabbix-rds-discovery`. The tool lists the
database instances of one region and prints a Zabbix low-level-discovery
document. The document has one entry per selected instance, holding its
identifier, endpoint address and port. The core is the loop in `main` that
walks the instances in enumeration order. With no tag filter it projects every
instance into an entry. With a filter it fetches each instance's tags and
pushes the instance once, at the first filter pair `{key, value}` that occurs
exactly among its tags. Every `unwrap`/`expect` in the loop aborts the
process, so no document is printed at all.

Files:

- `wrappers.dfy`: `Option` and `Result`.
- `rds.dfy`: the service responses the loop reads, with optional fields as the client library declares them. Ports are signed 64-bit (`int64`).
- `discovery.dfy`: the entry and document shapes, the serialized key names `{#DB}`, `{#DB_ENDPOINT}` and `{#DB_PORT}`, and the error reasons. It also holds:
  - the specification: `Project`, `Step`, `Select` and `Run`;
  - the imperative loop: `Discover`, whose body is `VisitInstance`. It pushes onto a `seq` accumulator, and its inner loop over the filter pairs ends with `break`. Both methods are proved to compute the specification.
- `properties.dfy`: what the loop promises, proved over the specification.
- `scenarios.dfy`: concrete runs.

The remote calls are inputs. The "describe DB instances" response is a value,
so the first-page-only limit is simply whichever sequence is supplied. "List
tags for resource" is a total function `listTags` from ARN to a response or a
failure. An aborted run is a `Failure(error)`, meaning that no document is
emitted.

The tool parses the tag-filter JSON inside the loop, once per instance. So
the filter argument is modelled as the outcome of that parse,
`Option<TagsArgument>`. A malformed filter therefore fails the run only when
at least one instance is enumerated. The tool does not reject a malformed
filter before its first remote call (the instance listing at
`src/main.rs:77-81` comes first), and it accepts the empty list `[]`, which
selects nothing.

Inside one iteration the errors occur in the code's evaluation order:
1. the filter parse;
2. the ARN (`src/main.rs:97`; the second unwrap at line 105 sees the same value);
3. the tag lookup;
4. the identifier, then the endpoint, then the address, then the port (the struct-literal field order).

## Model

| member | source | states |
|---|---|---|
| `Discovery.Project` | src/main.rs:116-120 | succeeds iff identifier, endpoint, address and port are all present, and then copies them into the entry unchanged; otherwise fails, never defaults |
| `Discovery.PairMatches` | src/main.rs:111-114 | a filter pair matches iff some tag carries its key and its value, both present (tags compare field by field) |
| `Discovery.Selected` | src/main.rs:110-114 | the filter pairs combine with OR: selected iff some pair and some tag agree on key and value; the empty filter selects nothing |
| `Discovery.TagsOf` | src/main.rs:107 | a lookup response without a tag list counts as no tags; otherwise exactly the listed tags |
| `Discovery.InstancesOf` | src/main.rs:84-86 | a response without an instance list gives no instances; otherwise exactly the listed instances, in response order |
| `Discovery.Step` | src/main.rs:89-131 | one instance contributes at most one entry, and that entry projects the instance |
| `Discovery.Select` | src/main.rs:84-132 | the loop's outcome over an instance sequence; the output never has more entries than there are instances |
| `Discovery.Run` | src/main.rs:84-132 | the whole loop over the response, a missing instance list counting as empty; document length bounded by the instance count |
| `Discovery.FailureSticks` | src/main.rs:84-132 | once the loop has failed on a prefix of the instances, the whole run fails with that same error |
| `Discovery.VisitInstance` | src/main.rs:89-131 | one iteration, with the inner loop over filter pairs that breaks after the first push, returns exactly the accumulator extended by the instance's specified contribution, or its error |
| `Discovery.Discover` | src/main.rs:84-132 | the imperative loop with its accumulator returns exactly the specified document or error |
| `DiscoveryProperties.StepOutcome` | src/main.rs:89-131 | an instance fails the run iff parse, ARN or lookup fails, or it is wanted but incomplete; an unwanted instance with missing identifier or endpoint never fails; on success it contributes an entry iff wanted |
| `DiscoveryProperties.NoFilterProjectsEveryInstance` | src/main.rs:124-130 | without a filter, success iff every instance is complete, and then one entry per instance, in order, fields copied verbatim |
| `DiscoveryProperties.SucceedsIffEveryStepSucceeds` | src/main.rs:84-132 | the run succeeds iff every instance's step succeeds |
| `DiscoveryProperties.FirstFailureAborts` | src/main.rs:100-106 | the first failing instance's error is the run's outcome, even if earlier instances matched |
| `DiscoveryProperties.FailureHasFirstCause` | src/main.rs:84-132 | a failed run's error is that of an instance all of whose predecessors succeeded |
| `DiscoveryProperties.OutputIsOrderedSelection` | src/main.rs:84-132 | the output projects a strictly increasing selection of instance indices; each selected instance is wanted, and every wanted instance is selected (order kept, no duplicates) |
| `DiscoveryProperties.PartialTagsNeverMatch` | src/main.rs:110-114 | dropping tags with a missing key or value changes no selection |
| `DiscoveryProperties.EmptyFilterSelectsNothing` | src/main.rs:110-123 | the filter list `[]` yields empty `data` whenever the run succeeds |
| `DiscoveryProperties.MalformedFilterNeedsAnInstance` | src/main.rs:84-93 | a malformed filter fails the run iff at least one instance is enumerated; otherwise `data` is empty |
| `DiscoveryProperties.MissingInstanceListGivesEmptyData` | src/main.rs:84-86 | a response without an instance list gives a document with empty `data` |
| `DiscoveryProperties.MissingTagListExcludes` | src/main.rs:107 | a lookup response without a tag list excludes the instance without failing |
| `DiscoveryScenarios.ProdFilterKeepsOnlyProd` | src/main.rs:110-121 | filter env=prod over db1 (env=prod) and db2 (env=dev) yields only db1's entry |
| `DiscoveryScenarios.SeveralMatchingPairsGiveOneEntry` | src/main.rs:115-121 | an instance matching two filter pairs appears once |
| `DiscoveryScenarios.LookupFailureAbortsWholeRun` | src/main.rs:100-106 | a failed lookup on the second of three instances aborts, although the first matched |

## Left out

- Command-line parsing and region parsing (src/main.rs:42-50): library calls. The filter is taken as an already-parsed optional argument.
- JSON decoding of the filter and pretty-printing of the document (src/main.rs:92-93, 135-138): library serialization. Only the three literal key names are recorded, as constants. A serialization failure is not modelled.
- STS role assumption, the auto-refreshing credential provider and the HTTP client (src/main.rs:53-75): network and credential plumbing.
- The "describe DB instances" and "list tags for resource" calls themselves (src/main.rs:77-81, 100-106): remote I/O. They are replaced by a response value and a lookup function. A failure of the describe call happens before the loop and is not modelled.
- Process exit, panic messages and exit codes: an aborted run is modelled only as a `Failure` carrying the reason.
