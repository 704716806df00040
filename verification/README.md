# Fragment-SAR enumerator, modelled in Dafny

`enumerator.py` is a small web service with one endpoint, `POST /enumerate`.
It takes a parent structure (a SMILES string), an optional list of substituent
tags and an optional result limit (default 200). For every atom of the parent
that carries hydrogens, and for every requested tag, it asks RDKit to replace
that atom site with the tag's fragment. Every candidate product is sanitized
(errors are caught and ignored) and stored in a dictionary keyed by its
canonical SMILES, so duplicates collapse and the first insertion fixes the
position. The loops stop on the limit. The answer is one descriptor row per
product: weight, logP, H-bond donors and acceptors, QED, and a rule-of-five
violation tally.

The model has five modules:

- `Toolkit` (`toolkit.dfy`) treats RDKit as uninterpreted inputs. Molecules are
  an opaque type `M`. Parsing, per-atom hydrogen counts, substructure
  replacement, sanitization, canonical SMILES and the descriptor numbers are
  function values of a `Toolkit<M>` record. Everything proved below therefore
  holds for any chemistry.
- `FragmentTable` (`fragment_table.dfy`) holds the `FG` dictionary as an
  ordered sequence of (tag, fragment) entries, with its lookup and its facts.
- `Descriptors` (`descriptors.dfy`) holds `desc` and the rule-of-five tally.
- `Enumerator` (`enumerator.dfy`) has three parts:
  - the request and response types;
  - one recursive specification function per loop of `run` (`InsertReps`,
    `OverTags`, `OverAtoms`), plus `RunSpec` for the whole endpoint;
  - the imperative loops (`InsertCandidates`, `SubstituteAtom`,
    `EnumerateProducts`) and `Run`, each proved equal to its specification
    function.
- `EnumeratorProperties` (`enumerator_properties.dfy`) proves what the
  endpoint promises, stated about `RunSpec` and so about `Run`:
  - the rows are distinct;
  - while the limit is never reached, they follow the traversal order; once it
    is reached they need not be the traversal's first keys;
  - every row comes from a hydrogen-bearing atom;
  - how far the limit bounds the result;
  - which requests fail, and with which status.

Where the code departs from its own comment or from a natural reading of its
parameters, the model follows the code:

- `groups=[]` asks for every tag, not for no substitutions, because
  `groups or list(FG)` treats an empty list like a missing one.
- `limit` reads as a cap on the rows, but the result can hold more rows than
  `limit`. The `break` at line 70 only ends
  the candidate loop of one tag. The next tag still runs, and the line-71 test
  comes only after all tags of an atom. The bound that holds is
  `max(limit, 1) + |groups| - 1`.
- Candidates whose sanitization fails are still inserted.
- The table has 31 entries; the comment at line 8 says 30.
- A tag missing from the table raises `KeyError`, which the catch-all handler
  turns into status 500. The lookup happens only at a hydrogen-bearing atom.
- A table fragment RDKit cannot parse is a failure of its own
  (`UnparsableFragment`). `MolFromSmiles` then returns `None`, and the
  replacement call raises, which also gives status 500. The CF2H fragment
  `*C(F)FH` writes a bare `H` outside brackets and is a likely case.
- The pyridyl tags are spelt with U+2011 NON-BREAKING HYPHEN. A request for
  `2-Pyr` written with an ASCII hyphen is therefore an unknown tag.

## Model

| member | source | states |
|---|---|---|
| FragmentTable.TableHasDistinctTags | enumerator.py:8-21 | the table has 31 entries and no tag appears twice |
| FragmentTable.EveryFragmentHasOneAttachment | enumerator.py:8-21 | every fragment starts with the `*` attachment point and has no other `*` |
| FragmentTable.OneAttachmentCountsOne | enumerator.py:8 | a fragment of that shape holds exactly one `*` |
| FragmentTable.FindFromFinds | enumerator.py:61 | a scan of the entries finds a tag exactly when some scanned entry carries it, and returns that entry's fragment |
| FragmentTable.LookupMatchesTags | enumerator.py:61 | `FG[tag]` succeeds exactly for the tags in `list(FG)`, and returns that tag's fragment |
| FragmentTable.LookupTableEntry | enumerator.py:8-21 | looking up the tag of entry i returns entry i's own fragment |
| FragmentTable.NoAsciiPyridylTag | enumerator.py:19 | no tag is `2-Pyr` or `4-Pyr` spelt with an ASCII hyphen |
| FragmentTable.AsciiHyphenIsNotATag | enumerator.py:19 | looking up the ASCII-hyphen spellings fails |
| FragmentTable.PyridylTagsFound | enumerator.py:19 | the U+2011 spellings find the two pyridyl fragments |
| Descriptors.Violations | enumerator.py:46 | there are four rule-of-five tests |
| Descriptors.Ro5 | enumerator.py:46 | the tally is between 0 and 4; it is 0 iff no threshold is exceeded and 4 iff all four are |
| Descriptors.Ro5CountsViolations | enumerator.py:46 | the summed booleans equal the number of rule-of-five tests that hold |
| Descriptors.Describe | enumerator.py:37-47 | the row's smiles is the canonical notation, its numbers are the toolkit's, and its `ro5` is the count of violated thresholds |
| Enumerator.PutKeepsFirstPosition | enumerator.py:69 | storing under a new key appends it; storing under an existing key replaces the molecule and keeps the key's position; well-formedness is preserved |
| Enumerator.Absorb | enumerator.py:69 | reference insertion order: starts with the old keys, holds exactly old keys and new keys, keeps keys distinct |
| Enumerator.EmptyMeansEveryTag | enumerator.py:54 | a missing or empty tag list means every tag in table order; any other list is used as given; the result is never empty |
| Enumerator.ResolveFailures | enumerator.py:61 | a tag no entry carries is `UnknownTag`; a success is the parse of an entry carrying the tag; the only failures are unknown and unparsable |
| Enumerator.UnknownTagsAreOutsideTheTable | enumerator.py:61 | over `FG`, the unknown tags are exactly those outside `list(FG)` |
| Enumerator.InsertRepsGrows | enumerator.py:67-70 | the candidate loop only adds keys at the end and keeps the dictionary well formed |
| Enumerator.OverTagsGrows | enumerator.py:60-70 | the same for the tag loop at one atom |
| Enumerator.OverAtomsGrows | enumerator.py:58-71 | the same for the atom loop |
| Enumerator.EnumerateWellFormed | enumerator.py:57-71 | the final dictionary has distinct keys, each the canonical notation of its molecule |
| Enumerator.ReportFollowsKeys | enumerator.py:73 | one row per key, in key order, each describing its own molecule and carrying its key |
| Enumerator.Run | enumerator.py:50-73 | the endpoint answers `RunSpec` |
| Enumerator.InsertCandidates | enumerator.py:67-70 | the candidate loop, including its `break`, computes `InsertReps` |
| Enumerator.SubstituteAtom | enumerator.py:60-70 | the tag loop computes `OverTags`; an unresolved tag aborts the request |
| Enumerator.EnumerateProducts | enumerator.py:57-71 | the atom loop, with its skip and its `break`, computes `Enumerate` |
| EnumeratorProperties.FirstFailing | enumerator.py:60-61 | the first tag that fails to resolve: every earlier tag resolves, and the one found fails |
| EnumeratorProperties.AbsorbAppend | enumerator.py:69 | inserting two batches of keys equals inserting their concatenation |
| EnumeratorProperties.InsertRepsUnderLimit | enumerator.py:67-70 | below the limit, the candidate loop inserts every candidate's key in order |
| EnumeratorProperties.OverTagsUnderLimit | enumerator.py:60-70 | below the limit, the tag loop inserts the keys of every tag in tag order |
| EnumeratorProperties.OverAtomsUnderLimit | enumerator.py:58-71 | below the limit, the atom loop inserts the keys of the whole traversal |
| EnumeratorProperties.RowsFollowTraversalOrder | enumerator.py:58-73 | if the limit is never reached, the rows are the traversal's distinct keys at their first-occurrence positions |
| EnumeratorProperties.KeysOfHas | enumerator.py:67-69 | each candidate's canonical key is among the keys of its batch |
| EnumeratorProperties.TagKeysHas | enumerator.py:60-69 | each tag's keys are among the keys of the tag loop |
| EnumeratorProperties.TraceKeysHas | enumerator.py:58-69 | each hydrogen-bearing atom's keys are among the traversal's keys |
| EnumeratorProperties.EveryCandidateIsARow | enumerator.py:58-73 | if the limit is never reached, every candidate of every hydrogen-bearing atom and resolved tag is a row, sanitized or not |
| EnumeratorProperties.InsertRepsSources | enumerator.py:67-69 | every key after the candidate loop is an old key or some candidate's key |
| EnumeratorProperties.OverTagsSources | enumerator.py:60-69 | every key after the tag loop is an old key or a key of a later tag |
| EnumeratorProperties.OverAtomsSources | enumerator.py:58-69 | every key after the atom loop is an old key or a key of a hydrogen-bearing atom and a tag |
| EnumeratorProperties.RowsComeFromHydrogenAtoms | enumerator.py:58-73 | every row is a candidate of some hydrogen-bearing atom and some requested tag |
| EnumeratorProperties.RowsAreDistinctAndTallied | enumerator.py:46-73 | row notations are pairwise distinct, and each row's `ro5` counts the thresholds its own fields exceed |
| EnumeratorProperties.InsertRepsBound | enumerator.py:67-70 | the candidate loop adds at most one key beyond the limit |
| EnumeratorProperties.OverTagsBound | enumerator.py:60-70 | each remaining tag can add one key beyond the limit |
| EnumeratorProperties.OverAtomsBound | enumerator.py:58-71 | the atom loop ends with at most max(limit, 1) + (number of tags) - 1 keys |
| EnumeratorProperties.RowCountBound | enumerator.py:50-73 | the response has at most max(limit, 1) + (number of tags) - 1 rows |
| EnumeratorProperties.BareAtomsSkipped | enumerator.py:59 | atoms without hydrogens change nothing |
| EnumeratorProperties.OverAtomsPrefix | enumerator.py:71 | once a hydrogen-bearing atom's tags fill the limit, the later atoms are never visited |
| EnumeratorProperties.LaterAtomsNeverVisited | enumerator.py:71 | if the atoms up to p fill the limit, the result is the same whatever atoms follow |
| EnumeratorProperties.FirstTwoTagsResolve | enumerator.py:9 | under a string toolkit, `F` and `Cl` resolve to `*F` and `*Cl` |
| EnumeratorProperties.TwoCandidatesInserted | enumerator.py:67-70 | with limit 1, the candidate loop inserts `*F`, and then `*Cl` as a second key |
| EnumeratorProperties.BothTagsInserted | enumerator.py:60-70 | the tag loop visits the second tag after the limit is reached |
| EnumeratorProperties.LimitCanBeExceeded | enumerator.py:70-71 | a request with limit 1 and the tags `F` and `Cl` gets two rows |
| EnumeratorProperties.TwoDistinctLead | enumerator.py:69 | two distinct leading keys take the first two places of the insertion order, whatever follows |
| EnumeratorProperties.VariantsResolve | enumerator.py:9 | under a toolkit whose replacement offers the fragment and a variant, `F` and `Cl` resolve to `*F` and `*Cl` |
| EnumeratorProperties.FirstCandidatePerTag | enumerator.py:67-70 | with limit 1, each tag's candidate loop stops after its first candidate: `*F`, then `*Cl` |
| EnumeratorProperties.VariantKeys | enumerator.py:62-69 | a tag resolving to `frag` offers the keys `frag` and `frag + "x"` in that order |
| EnumeratorProperties.VariantsTrace | enumerator.py:58-69 | the traversal offers `*F`, `*Fx`, `*Cl`, `*Clx` |
| EnumeratorProperties.VariantsKept | enumerator.py:58-71 | with limit 1, the enumeration keeps `*F` and `*Cl` |
| EnumeratorProperties.VariantsOrder | enumerator.py:69 | in the traversal's insertion order, `*Fx` is second |
| EnumeratorProperties.VariantsRows | enumerator.py:50-73 | the request with limit 1 and tags `F`, `Cl` gets the rows `*F` and `*Cl` |
| EnumeratorProperties.KeptRowsAreNotATraversalPrefix | enumerator.py:70-71 | once the limit is hit, the rows are not the first keys of the traversal: the rows are `*F`, `*Cl`, the traversal's second key is `*Fx` |
| EnumeratorProperties.OverTagsFailure | enumerator.py:60-61 | the tag loop fails iff some tag fails to resolve, and then with the first such tag's failure |
| EnumeratorProperties.OverAtomsFailure | enumerator.py:58-61 | the atom loop fails iff some tag fails to resolve and some atom carries hydrogens |
| EnumeratorProperties.UnresolvedTagIsServerError | enumerator.py:58-61 | once the parent parses, the request fails iff a tag fails to resolve and some atom has hydrogens; the answer is then 500 with the first such tag's failure |
| EnumeratorProperties.BadSmilesIsTheOnlyClientError | enumerator.py:51-53 | an unparsable parent gives 400 "Bad SMILES"; no other request gets 400 |
| EnumeratorProperties.UnknownTagIsNotSkipped | enumerator.py:61 | a requested tag outside the table, after tags that all resolve, is answered with 500, not skipped |
| EnumeratorProperties.NoHydrogensNoRows | enumerator.py:58-59 | a parent without hydrogen-bearing atoms gives an empty row list and no error, even with unknown tags |
| EnumeratorProperties.MissingLimitMeansDefault | enumerator.py:50 | a request without a limit gets the same answer as one with limit 200 |
| EnumeratorProperties.EmptyGroupsMeanAllTags | enumerator.py:54 | an empty tag list gives the same answer as no list: all 31 tags |

## Left out

- RDKit itself is left out: parsing, substructure matching and replacement,
  sanitization, canonical SMILES and the descriptor numerics. These are the
  function values of `Toolkit`, and floating-point descriptors are opaque
  `real`s. The `[H]` query built at line 56 only feeds the replacement call,
  so it is part of `replace`.
- FastAPI is left out: the app object, the CORS middleware, request parsing
  and JSON encoding. A request is the record `Request(smiles, groups, limit)`,
  and a response is either the rows or an error status with its cause.
- The text of error details is left out: the `detail` of the 400 answer and
  the exception text of a 500. `Failure` names the cause instead.
- Exceptions other than an unknown tag or an unparsable fragment are left out.
  These would be toolkit or descriptor errors raised while the request runs.
- Concurrency between requests is left out. Each request is independent.
- The single nested loop of `run` is not kept as one method. It is split into
  three methods, one per loop level.
  Each `break` and early exit keeps its place, and each method is proved equal
  to its loop's function.
- The enumeration functions take the fragment table as a parameter; the
  endpoint always passes `FG`.
- EnumeratorProperties.RowsFollowTraversalOrder states order only for runs
  that never reach the limit. Once the limit is hit, the rows need not be the
  traversal's first keys (`KeptRowsAreNotATraversalPrefix`); the row count
  bound and the prefix lemmas describe the result instead.
- EnumeratorProperties.EveryCandidateIsARow states coverage only for runs that
  never reach the limit, for the same reason.
