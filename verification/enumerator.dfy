/** The `/enumerate` endpoint (`run`, enumerator.py:49-73): parse the parent
    structure, pick the tags, walk the hydrogen-bearing atoms and the tags,
    collect the substitution products in an insertion-ordered dictionary keyed
    by canonical line notation, stop on the result-count limit, and describe
    every product.

    The loop nest is specified by three recursive functions, one per loop
    (`InsertReps` for the products of one (atom, tag) pair, `OverTags` for
    the tags at one atom, `OverAtoms` for the atoms), stated over any
    fragment table; `RunSpec` is the endpoint over the FG table. The
    imperative methods `InsertCandidates`, `SubstituteAtom` and
    `EnumerateProducts` run the three loops, each proved equal to its
    function, and `Run` is proved equal to `RunSpec`. */
module Enumerator {

  import opened Toolkit
  import opened Descriptors
  import FragmentTable

  /** The default of the `limit` parameter. */
  const DefaultLimit: int := 200

  /** Why a request fails: an unparsable parent structure (the 400 client
      error "Bad SMILES"), a tag missing from the table (KeyError), or a table
      fragment the toolkit cannot parse (the substitution call is then handed
      no fragment and raises). */
  datatype Failure = BadSmiles | UnknownTag(tag: string) | UnparsableFragment(tag: string)

  datatype Outcome<T> = Ok(value: T) | Err(failure: Failure)

  /** One request: the structure, the optional tag list and the optional limit. */
  datatype Request = Request(smiles: string, groups: Option<seq<string>>, limit: Option<int>)

  /** The HTTP answer: the rows (status 200), or an error status with its cause. */
  datatype Response = Rows(rows: seq<Descriptor>) | Error(status: nat, failure: Failure)

  /** The `products` dictionary: its keys in first-insertion order and its
      key-to-molecule mapping. */
  datatype Products<M> = Products(keys: seq<string>, vals: map<string, M>)

  function Empty<M>(): Products<M>
  {
    Products([], map[])
  }

  /** The key sequence and the mapping hold the same keys. */
  ghost predicate Indexed<M>(d: Products<M>)
  {
    forall k :: k in d.vals <==> k in d.keys
  }

  /** A well-formed dictionary: distinct keys, each the canonical line
      notation of the molecule it maps to. */
  ghost predicate WellFormed<M>(tk: Toolkit<M>, d: Products<M>)
  {
    FragmentTable.Distinct(d.keys) && Indexed(d)
    && forall k :: k in d.vals ==> tk.canonical(d.vals[k]) == k
  }

  /** `products[Chem.MolToSmiles(p, True)] = p`. */
  function Put<M>(tk: Toolkit<M>, d: Products<M>, p: M): Products<M>
  {
    var key := tk.canonical(p);
    if key in d.vals then Products(d.keys, d.vals[key := p])
    else Products(d.keys + [key], d.vals[key := p])
  }

  /** Storing a molecule under a new key appends the key; under a key already
      present it replaces the molecule and the key keeps its position. */
  lemma PutKeepsFirstPosition<M>(tk: Toolkit<M>, d: Products<M>, p: M)
    ensures Put(tk, d, p).vals == d.vals[tk.canonical(p) := p]
    ensures Indexed(d) && tk.canonical(p) in d.keys ==> Put(tk, d, p).keys == d.keys
    ensures Indexed(d) && tk.canonical(p) !in d.keys ==> Put(tk, d, p).keys == d.keys + [tk.canonical(p)]
    ensures WellFormed(tk, d) ==> WellFormed(tk, Put(tk, d, p))
  {
  }

  /** Reference definition of insertion order: the keys of a dictionary with
      keys `keys` after inserting `ks` in order. */
  function Absorb(keys: seq<string>, ks: seq<string>): (r: seq<string>)
    ensures keys <= r
    ensures forall k :: k in r <==> k in keys || k in ks
    ensures FragmentTable.Distinct(keys) ==> FragmentTable.Distinct(r)
    decreases |ks|
  {
    if ks == [] then keys
    else Absorb(if ks[0] in keys then keys else keys + [ks[0]], ks[1..])
  }

  /** `groups or list(FG)`. */
  function EffectiveGroups(groups: Option<seq<string>>): seq<string>
  {
    if groups.Some? && groups.value != [] then groups.value else FragmentTable.Tags()
  }

  /** A missing or empty tag list means every tag of the table, in table
      order; any other list is used as given. */
  lemma EmptyMeansEveryTag(groups: Option<seq<string>>)
    ensures groups.Some? && groups.value != [] ==> EffectiveGroups(groups) == groups.value
    ensures groups == None || groups == Some([]) ==> EffectiveGroups(groups) == FragmentTable.Tags()
    ensures EffectiveGroups(groups) != []
  {
  }

  /** The limit a request runs with. */
  function EffectiveLimit(limit: Option<int>): (r: int)
    ensures limit.Some? ==> r == limit.value
    ensures limit.None? ==> r == 200
  {
    if limit.Some? then limit.value else DefaultLimit
  }

  /** `Chem.MolFromSmiles(FG[tag])`, over a fragment table `table` of
      (tag, fragment) entries; the endpoint passes `FragmentTable.Table`. */
  function Resolve<M>(tk: Toolkit<M>, table: seq<(string, string)>, tag: string): Outcome<M>
  {
    match FragmentTable.FindFrom(table, tag, 0)
    case None => Err(UnknownTag(tag))
    case Some(frag) =>
      match tk.parse(frag)
      case None => Err(UnparsableFragment(tag))
      case Some(fg) => Ok(fg)
  }

  /** A tag resolves to the parsed fragment of an entry carrying it; a tag no
      entry carries is a lookup error, and a fragment the toolkit cannot
      parse is an error of its own. */
  lemma ResolveFailures<M>(tk: Toolkit<M>, table: seq<(string, string)>, tag: string)
    ensures Resolve(tk, table, tag) == Err(UnknownTag(tag)) <==> forall i :: 0 <= i < |table| ==> table[i].0 != tag
    ensures Resolve(tk, table, tag).Ok? ==>
              exists i :: 0 <= i < |table| && table[i].0 == tag
                          && tk.parse(table[i].1) == Some(Resolve(tk, table, tag).value)
    ensures Resolve(tk, table, tag).Err? ==>
              Resolve(tk, table, tag).failure in {UnknownTag(tag), UnparsableFragment(tag)}
  {
    FragmentTable.FindFromFinds(table, tag, 0);
  }

  /** Over the FG table, the unknown tags are exactly those outside `list(FG)`. */
  lemma UnknownTagsAreOutsideTheTable<M>(tk: Toolkit<M>, tag: string)
    ensures Resolve(tk, FragmentTable.Table, tag) == Err(UnknownTag(tag)) <==> tag !in FragmentTable.Tags()
  {
    FragmentTable.LookupMatchesTags(tag);
  }

  /** The innermost loop (`for p in reps`, enumerator.py:67-70) from candidate
      `k` on: sanitize and insert each candidate, and leave the loop as soon as
      the dictionary holds `limit` keys or more. */
  function InsertReps<M>(tk: Toolkit<M>, d: Products<M>, reps: seq<M>, k: nat, limit: int): Products<M>
    decreases |reps| - k
  {
    if k >= |reps| then d
    else
      var d' := Put(tk, d, tk.sanitize(reps[k]));
      if |d'.keys| >= limit then d' else InsertReps(tk, d', reps, k + 1, limit)
  }

  /** The tag loop at one atom from tag `j` on (enumerator.py:60-70). There is
      no limit test between tags: the `break` of the inner loop only ends that
      tag. */
  function OverTags<M>(tk: Toolkit<M>, table: seq<(string, string)>, core: M, atom: nat, tags: seq<string>,
                       j: nat, limit: int, d: Products<M>): Outcome<Products<M>>
    decreases |tags| - j
  {
    if j >= |tags| then Ok(d)
    else
      match Resolve(tk, table, tags[j])
      case Err(f) => Err(f)
      case Ok(fg) =>
        var d' := InsertReps(tk, d, tk.replace(core, atom, fg), 0, limit);
        OverTags(tk, table, core, atom, tags, j + 1, limit, d')
  }

  /** The atom loop from atom `i` on (enumerator.py:58-71): atoms without
      hydrogens are skipped, and the limit is tested only after a
      hydrogen-bearing atom. */
  function OverAtoms<M>(tk: Toolkit<M>, table: seq<(string, string)>, core: M, hs: seq<nat>,
                        tags: seq<string>, limit: int, d: Products<M>, i: nat): Outcome<Products<M>>
    decreases |hs| - i
  {
    if i >= |hs| then Ok(d)
    else if hs[i] == 0 then OverAtoms(tk, table, core, hs, tags, limit, d, i + 1)
    else
      match OverTags(tk, table, core, i, tags, 0, limit, d)
      case Err(f) => Err(f)
      case Ok(d') =>
        if |d'.keys| >= limit then Ok(d') else OverAtoms(tk, table, core, hs, tags, limit, d', i + 1)
  }

  /** The whole enumeration over a parent whose atoms carry `hs` hydrogens. */
  function Enumerate<M>(tk: Toolkit<M>, table: seq<(string, string)>, core: M, hs: seq<nat>,
                        tags: seq<string>, limit: int)
    : Outcome<Products<M>>
  {
    OverAtoms(tk, table, core, hs, tags, limit, Empty(), 0)
  }

  lemma {:induction false} InsertRepsGrows<M>(tk: Toolkit<M>, d: Products<M>, reps: seq<M>, k: nat, limit: int)
    ensures d.keys <= InsertReps(tk, d, reps, k, limit).keys
    ensures WellFormed(tk, d) ==> WellFormed(tk, InsertReps(tk, d, reps, k, limit))
    decreases |reps| - k
  {
    if k < |reps| {
      var d' := Put(tk, d, tk.sanitize(reps[k]));
      PutKeepsFirstPosition(tk, d, tk.sanitize(reps[k]));
      InsertRepsGrows(tk, d', reps, k + 1, limit);
    }
  }

  lemma {:induction false} OverTagsGrows<M>(tk: Toolkit<M>, table: seq<(string, string)>, core: M, atom: nat,
                                            tags: seq<string>, j: nat, limit: int, d: Products<M>)
    ensures OverTags(tk, table, core, atom, tags, j, limit, d).Ok? ==>
              d.keys <= OverTags(tk, table, core, atom, tags, j, limit, d).value.keys
    ensures OverTags(tk, table, core, atom, tags, j, limit, d).Ok? && WellFormed(tk, d) ==>
              WellFormed(tk, OverTags(tk, table, core, atom, tags, j, limit, d).value)
    decreases |tags| - j
  {
    if j < |tags| && Resolve(tk, table, tags[j]).Ok? {
      var reps := tk.replace(core, atom, Resolve(tk, table, tags[j]).value);
      InsertRepsGrows(tk, d, reps, 0, limit);
      OverTagsGrows(tk, table, core, atom, tags, j + 1, limit, InsertReps(tk, d, reps, 0, limit));
    }
  }

  lemma {:induction false} OverAtomsGrows<M>(tk: Toolkit<M>, table: seq<(string, string)>, core: M,
                                             hs: seq<nat>, tags: seq<string>, limit: int, d: Products<M>,
                                             i: nat)
    ensures OverAtoms(tk, table, core, hs, tags, limit, d, i).Ok? ==>
              d.keys <= OverAtoms(tk, table, core, hs, tags, limit, d, i).value.keys
    ensures OverAtoms(tk, table, core, hs, tags, limit, d, i).Ok? && WellFormed(tk, d) ==>
              WellFormed(tk, OverAtoms(tk, table, core, hs, tags, limit, d, i).value)
    decreases |hs| - i
  {
    if i < |hs| {
      if hs[i] == 0 {
        OverAtomsGrows(tk, table, core, hs, tags, limit, d, i + 1);
      } else {
        OverTagsGrows(tk, table, core, i, tags, 0, limit, d);
        var t := OverTags(tk, table, core, i, tags, 0, limit, d);
        if t.Ok? {
          OverAtomsGrows(tk, table, core, hs, tags, limit, t.value, i + 1);
        }
      }
    }
  }

  /** Every dictionary the enumeration returns is well formed: its keys are
      pairwise distinct and each is the canonical notation of its molecule. */
  lemma EnumerateWellFormed<M>(tk: Toolkit<M>, table: seq<(string, string)>, core: M, hs: seq<nat>,
                               tags: seq<string>, limit: int)
    ensures Enumerate(tk, table, core, hs, tags, limit).Ok? ==>
              WellFormed(tk, Enumerate(tk, table, core, hs, tags, limit).value)
  {
    OverAtomsGrows(tk, table, core, hs, tags, limit, Empty(), 0);
  }

  /** `[desc(m) for m in products.values()]`. */
  function Report<M>(tk: Toolkit<M>, d: Products<M>): seq<Descriptor>
    requires Indexed(d)
  {
    seq(|d.keys|, n requires 0 <= n < |d.keys| => Describe(tk, d.vals[d.keys[n]]))
  }

  /** One row per key, in key order, each the description of the molecule
      stored under its key and carrying that key as its notation. */
  lemma ReportFollowsKeys<M>(tk: Toolkit<M>, d: Products<M>)
    requires WellFormed(tk, d)
    ensures |Report(tk, d)| == |d.keys|
    ensures forall n :: 0 <= n < |d.keys| ==>
              Report(tk, d)[n] == Describe(tk, d.vals[d.keys[n]]) && Report(tk, d)[n].smiles == d.keys[n]
  {
  }

  /** The status a failure is answered with: the explicit HTTPException for
      the parent keeps its 400, anything else reaches the catch-all handler. */
  function Status(f: Failure): (s: nat)
    ensures s == 400 <==> f == BadSmiles
    ensures s == 400 || s == 500
  {
    if f == BadSmiles then 400 else 500
  }

  /** What the endpoint answers. */
  function RunSpec<M>(tk: Toolkit<M>, req: Request): (resp: Response)
  {
    match tk.parse(req.smiles)
    case None => Error(Status(BadSmiles), BadSmiles)
    case Some(core) =>
      var hs, groups, limit := tk.hydrogens(core), EffectiveGroups(req.groups), EffectiveLimit(req.limit);
      match Enumerate(tk, FragmentTable.Table, core, hs, groups, limit)
      case Err(f) => Error(Status(f), f)
      case Ok(d) =>
        EnumerateWellFormed(tk, FragmentTable.Table, core, hs, groups, limit);
        Rows(Report(tk, d))
  }

  /** `run`: the endpoint (enumerator.py:50-56 and 73); the loops are in
      `EnumerateProducts`. */
  method Run<M>(tk: Toolkit<M>, req: Request) returns (resp: Response)
    ensures resp == RunSpec(tk, req)
  {
    var parsed := tk.parse(req.smiles);
    if parsed.None? {
      return Error(400, BadSmiles);
    }
    var core := parsed.value;
    var groups := EffectiveGroups(req.groups);
    var limit := EffectiveLimit(req.limit);
    var hs := tk.hydrogens(core);
    var products := EnumerateProducts(tk, FragmentTable.Table, core, hs, groups, limit);
    if products.Err? {
      return Error(Status(products.failure), products.failure);
    }
    EnumerateWellFormed(tk, FragmentTable.Table, core, hs, groups, limit);
    resp := Rows(Report(tk, products.value));
  }

  /** The candidate loop of `run` (enumerator.py:67-70): each candidate is
      sanitized and stored under its canonical key; the loop stops as soon
      as the dictionary holds `limit` keys. */
  method InsertCandidates<M>(tk: Toolkit<M>, d0: Products<M>, reps: seq<M>, limit: int)
    returns (d: Products<M>)
    ensures d == InsertReps(tk, d0, reps, 0, limit)
  {
    d := d0;
    var k := 0;
    while k < |reps|
      invariant k <= |reps|
      invariant InsertReps(tk, d, reps, k, limit) == InsertReps(tk, d0, reps, 0, limit)
    {
      var p := tk.sanitize(reps[k]);
      var key := tk.canonical(p);
      if key in d.vals {
        d := Products(d.keys, d.vals[key := p]);
      } else {
        d := Products(d.keys + [key], d.vals[key := p]);
      }
      if |d.keys| >= limit {
        return;
      }
      k := k + 1;
    }
  }

  /** The tag loop for one atom (enumerator.py:60-70): a tag that does not
      resolve aborts the whole request. */
  method SubstituteAtom<M>(tk: Toolkit<M>, table: seq<(string, string)>, core: M, atom: nat,
                           groups: seq<string>, limit: int, d0: Products<M>)
    returns (r: Outcome<Products<M>>)
    ensures r == OverTags(tk, table, core, atom, groups, 0, limit, d0)
  {
    var d := d0;
    var j := 0;
    while j < |groups|
      invariant j <= |groups|
      invariant OverTags(tk, table, core, atom, groups, j, limit, d)
             == OverTags(tk, table, core, atom, groups, 0, limit, d0)
    {
      var fg := Resolve(tk, table, groups[j]);
      if fg.Err? {
        return Err(fg.failure);
      }
      d := InsertCandidates(tk, d, tk.replace(core, atom, fg.value), limit);
      j := j + 1;
    }
    return Ok(d);
  }

  /** The atom loop of `run` (enumerator.py:57-71). */
  method EnumerateProducts<M>(tk: Toolkit<M>, table: seq<(string, string)>, core: M, hs: seq<nat>,
                             groups: seq<string>, limit: int)
    returns (r: Outcome<Products<M>>)
    ensures r == Enumerate(tk, table, core, hs, groups, limit)
  {
    var d := Empty();
    var i := 0;
    while i < |hs|
      invariant i <= |hs|
      invariant OverAtoms(tk, table, core, hs, groups, limit, d, i)
             == Enumerate(tk, table, core, hs, groups, limit)
    {
      if hs[i] > 0 {
        var step := SubstituteAtom(tk, table, core, i, groups, limit, d);
        if step.Err? {
          return step;
        }
        d := step.value;
        if |d.keys| >= limit {
          break;
        }
      }
      i := i + 1;
    }
    return Ok(d);
  }
}
