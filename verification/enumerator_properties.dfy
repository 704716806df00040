/** What the endpoint promises, proved about the loop specification in
    module Enumerator (and so, through the postconditions of `Run` and its
    loop methods, about `Run`): distinct rows in first-insertion order, where
    they come from, how far the limit bounds them, and which requests fail
    and how. */
module EnumeratorProperties {

  import opened Toolkit
  import opened Descriptors
  import opened Enumerator
  import FragmentTable

  function Max(a: int, b: int): int
  {
    if a >= b then a else b
  }

  /** The keys the candidates `reps[k..]` are inserted under, in order. */
  function KeysOf<M>(tk: Toolkit<M>, reps: seq<M>, k: nat): seq<string>
    decreases |reps| - k
  {
    if k >= |reps| then [] else [tk.canonical(tk.sanitize(reps[k]))] + KeysOf(tk, reps, k + 1)
  }

  /** The keys the pair (atom, tag) offers: one per candidate of the
      substitution call, none when the tag does not resolve. */
  function CandidateKeys<M>(tk: Toolkit<M>, table: seq<(string, string)>, core: M, atom: nat, tag: string)
    : seq<string>
  {
    match Resolve(tk, table, tag)
    case Err(_) => []
    case Ok(fg) => KeysOf(tk, tk.replace(core, atom, fg), 0)
  }

  /** The keys of the tags from `j` on at one atom, in tag order. */
  function TagKeys<M>(tk: Toolkit<M>, table: seq<(string, string)>, core: M, atom: nat, tags: seq<string>,
                      j: nat): seq<string>
    decreases |tags| - j
  {
    if j >= |tags| then []
    else CandidateKeys(tk, table, core, atom, tags[j]) + TagKeys(tk, table, core, atom, tags, j + 1)
  }

  /** The keys of the whole traversal from atom `i` on, without any limit:
      hydrogen-bearing atoms in index order, then tags, then candidates. */
  function TraceKeys<M>(tk: Toolkit<M>, table: seq<(string, string)>, core: M, hs: seq<nat>,
                        tags: seq<string>, i: nat): seq<string>
    decreases |hs| - i
  {
    if i >= |hs| then []
    else if hs[i] == 0 then TraceKeys(tk, table, core, hs, tags, i + 1)
    else TagKeys(tk, table, core, i, tags, 0) + TraceKeys(tk, table, core, hs, tags, i + 1)
  }

  /** The index of the first tag from `j` on that does not resolve, or
      `|tags|` when every one of them resolves. */
  function FirstFailing<M>(tk: Toolkit<M>, table: seq<(string, string)>, tags: seq<string>, j: nat): (r: nat)
    requires j <= |tags|
    ensures j <= r <= |tags|
    ensures forall l :: j <= l < r ==> Resolve(tk, table, tags[l]).Ok?
    ensures r < |tags| ==> Resolve(tk, table, tags[r]).Err?
    decreases |tags| - j
  {
    if j == |tags| then j
    else if Resolve(tk, table, tags[j]).Err? then j
    else FirstFailing(tk, table, tags, j + 1)
  }

  // ---------------------------------------------------------------------
  // Insertion order

  /** Inserting two batches of keys is inserting their concatenation. */
  lemma {:induction false} AbsorbAppend(keys: seq<string>, a: seq<string>, b: seq<string>)
    ensures Absorb(keys, a + b) == Absorb(Absorb(keys, a), b)
    decreases |a|
  {
    if a == [] {
      assert a + b == b;
    } else {
      assert (a + b)[0] == a[0] && (a + b)[1..] == a[1..] + b;
      AbsorbAppend(if a[0] in keys then keys else keys + [a[0]], a[1..], b);
    }
  }

  lemma {:induction false} InsertRepsUnderLimit<M>(tk: Toolkit<M>, d: Products<M>, reps: seq<M>, k: nat,
                                                   limit: int)
    requires WellFormed(tk, d)
    requires |InsertReps(tk, d, reps, k, limit).keys| < limit
    ensures InsertReps(tk, d, reps, k, limit).keys == Absorb(d.keys, KeysOf(tk, reps, k))
    decreases |reps| - k
  {
    if k < |reps| {
      var p := tk.sanitize(reps[k]);
      var d' := Put(tk, d, p);
      PutKeepsFirstPosition(tk, d, p);
      var ks := KeysOf(tk, reps, k);
      assert ks[0] == tk.canonical(p) && ks[1..] == KeysOf(tk, reps, k + 1);
      InsertRepsUnderLimit(tk, d', reps, k + 1, limit);
    }
  }

  lemma {:induction false} OverTagsUnderLimit<M>(tk: Toolkit<M>, table: seq<(string, string)>, core: M,
                                                 atom: nat, tags: seq<string>, j: nat, limit: int,
                                                 d: Products<M>)
    requires WellFormed(tk, d)
    requires OverTags(tk, table, core, atom, tags, j, limit, d).Ok?
    requires |OverTags(tk, table, core, atom, tags, j, limit, d).value.keys| < limit
    ensures OverTags(tk, table, core, atom, tags, j, limit, d).value.keys
         == Absorb(d.keys, TagKeys(tk, table, core, atom, tags, j))
    decreases |tags| - j
  {
    if j < |tags| {
      var reps := tk.replace(core, atom, Resolve(tk, table, tags[j]).value);
      var d1 := InsertReps(tk, d, reps, 0, limit);
      OverTagsGrows(tk, table, core, atom, tags, j + 1, limit, d1);
      InsertRepsGrows(tk, d, reps, 0, limit);
      InsertRepsUnderLimit(tk, d, reps, 0, limit);
      OverTagsUnderLimit(tk, table, core, atom, tags, j + 1, limit, d1);
      AbsorbAppend(d.keys, CandidateKeys(tk, table, core, atom, tags[j]),
                   TagKeys(tk, table, core, atom, tags, j + 1));
    }
  }

  lemma {:induction false} OverAtomsUnderLimit<M>(tk: Toolkit<M>, table: seq<(string, string)>, core: M,
                                                  hs: seq<nat>, tags: seq<string>, limit: int, d: Products<M>,
                                                  i: nat)
    requires WellFormed(tk, d)
    requires OverAtoms(tk, table, core, hs, tags, limit, d, i).Ok?
    requires |OverAtoms(tk, table, core, hs, tags, limit, d, i).value.keys| < limit
    ensures OverAtoms(tk, table, core, hs, tags, limit, d, i).value.keys
         == Absorb(d.keys, TraceKeys(tk, table, core, hs, tags, i))
    decreases |hs| - i
  {
    if i < |hs| {
      if hs[i] == 0 {
        OverAtomsUnderLimit(tk, table, core, hs, tags, limit, d, i + 1);
      } else {
        var d' := OverTags(tk, table, core, i, tags, 0, limit, d).value;
        OverTagsGrows(tk, table, core, i, tags, 0, limit, d);
        OverTagsUnderLimit(tk, table, core, i, tags, 0, limit, d);
        OverAtomsUnderLimit(tk, table, core, hs, tags, limit, d', i + 1);
        AbsorbAppend(d.keys, TagKeys(tk, table, core, i, tags, 0), TraceKeys(tk, table, core, hs, tags, i + 1));
      }
    }
  }

  /** When the limit is never reached, the rows are every candidate of every
      visited (atom, tag) pair, sanitized or not, deduplicated by canonical
      notation, each at the position of its first occurrence in the
      traversal. */
  lemma RowsFollowTraversalOrder<M>(tk: Toolkit<M>, req: Request, core: M)
    requires tk.parse(req.smiles) == Some(core)
    requires RunSpec(tk, req).Rows?
    requires |RunSpec(tk, req).rows| < EffectiveLimit(req.limit)
    ensures var trace := TraceKeys(tk, FragmentTable.Table, core, tk.hydrogens(core), EffectiveGroups(req.groups), 0);
            var order := Absorb([], trace);
            |RunSpec(tk, req).rows| == |order|
            && forall n :: 0 <= n < |order| ==> RunSpec(tk, req).rows[n].smiles == order[n]
  {
    var table := FragmentTable.Table;
    var hs, tags, limit := tk.hydrogens(core), EffectiveGroups(req.groups), EffectiveLimit(req.limit);
    EnumerateWellFormed(tk, table, core, hs, tags, limit);
    var d := Enumerate(tk, table, core, hs, tags, limit).value;
    ReportFollowsKeys(tk, d);
    OverAtomsUnderLimit(tk, table, core, hs, tags, limit, Empty(), 0);
  }

  lemma {:induction false} KeysOfHas<M>(tk: Toolkit<M>, reps: seq<M>, k: nat, m: nat)
    requires k <= m < |reps|
    ensures tk.canonical(tk.sanitize(reps[m])) in KeysOf(tk, reps, k)
    decreases m - k
  {
    if k < m {
      KeysOfHas(tk, reps, k + 1, m);
    }
  }

  lemma {:induction false} TagKeysHas<M>(tk: Toolkit<M>, table: seq<(string, string)>, core: M, atom: nat,
                                         tags: seq<string>, j: nat, t: nat, key: string)
    requires j <= t < |tags| && key in CandidateKeys(tk, table, core, atom, tags[t])
    ensures key in TagKeys(tk, table, core, atom, tags, j)
    decreases t - j
  {
    if j < t {
      TagKeysHas(tk, table, core, atom, tags, j + 1, t, key);
    }
  }

  lemma {:induction false} TraceKeysHas<M>(tk: Toolkit<M>, table: seq<(string, string)>, core: M,
                                           hs: seq<nat>, tags: seq<string>, i: nat, a: nat, key: string)
    requires i <= a < |hs| && hs[a] > 0 && key in TagKeys(tk, table, core, a, tags, 0)
    ensures key in TraceKeys(tk, table, core, hs, tags, i)
    decreases a - i
  {
    if i < a {
      TraceKeysHas(tk, table, core, hs, tags, i + 1, a, key);
      if hs[i] > 0 {
        InAppend(TagKeys(tk, table, core, i, tags, 0), TraceKeys(tk, table, core, hs, tags, i + 1), key);
      }
    } else {
      InAppend(TagKeys(tk, table, core, a, tags, 0), TraceKeys(tk, table, core, hs, tags, a + 1), key);
    }
  }

  lemma InAppend(a: seq<string>, b: seq<string>, x: string)
    ensures x in a + b <==> x in a || x in b
  {
  }

  /** When the limit is never reached, every candidate of every
      hydrogen-bearing atom and requested tag becomes a row, whether or not
      its sanitization succeeded: its canonical notation is some row's. */
  lemma EveryCandidateIsARow<M>(tk: Toolkit<M>, req: Request, core: M, a: nat, t: nat, m: nat)
    requires tk.parse(req.smiles) == Some(core)
    requires RunSpec(tk, req).Rows?
    requires |RunSpec(tk, req).rows| < EffectiveLimit(req.limit)
    requires a < |tk.hydrogens(core)| && tk.hydrogens(core)[a] > 0
    requires t < |EffectiveGroups(req.groups)|
    requires Resolve(tk, FragmentTable.Table, EffectiveGroups(req.groups)[t]).Ok?
    requires m < |tk.replace(core, a, Resolve(tk, FragmentTable.Table, EffectiveGroups(req.groups)[t]).value)|
    ensures var fg := Resolve(tk, FragmentTable.Table, EffectiveGroups(req.groups)[t]).value;
            var c := tk.replace(core, a, fg)[m];
            exists n :: 0 <= n < |RunSpec(tk, req).rows|
                        && RunSpec(tk, req).rows[n].smiles == tk.canonical(tk.sanitize(c))
  {
    var table := FragmentTable.Table;
    var hs, tags := tk.hydrogens(core), EffectiveGroups(req.groups);
    var reps := tk.replace(core, a, Resolve(tk, table, tags[t]).value);
    var key := tk.canonical(tk.sanitize(reps[m]));
    KeysOfHas(tk, reps, 0, m);
    TagKeysHas(tk, table, core, a, tags, 0, t, key);
    TraceKeysHas(tk, table, core, hs, tags, 0, a, key);
    RowsFollowTraversalOrder(tk, req, core);
    var order := Absorb([], TraceKeys(tk, table, core, hs, tags, 0));
    var n :| 0 <= n < |order| && order[n] == key;
  }

  // ---------------------------------------------------------------------
  // Where rows come from

  lemma {:induction false} InsertRepsSources<M>(tk: Toolkit<M>, d: Products<M>, reps: seq<M>, k: nat,
                                                limit: int)
    ensures forall key :: key in InsertReps(tk, d, reps, k, limit).keys ==>
              key in d.keys || key in KeysOf(tk, reps, k)
    decreases |reps| - k
  {
    if k < |reps| {
      var d' := Put(tk, d, tk.sanitize(reps[k]));
      InsertRepsSources(tk, d', reps, k + 1, limit);
    }
  }

  lemma {:induction false} OverTagsSources<M>(tk: Toolkit<M>, table: seq<(string, string)>, core: M,
                                              atom: nat, tags: seq<string>, j: nat, limit: int, d: Products<M>)
    requires OverTags(tk, table, core, atom, tags, j, limit, d).Ok?
    ensures forall key :: key in OverTags(tk, table, core, atom, tags, j, limit, d).value.keys ==>
              key in d.keys || exists t :: j <= t < |tags| && key in CandidateKeys(tk, table, core, atom, tags[t])
    decreases |tags| - j
  {
    if j < |tags| {
      var reps := tk.replace(core, atom, Resolve(tk, table, tags[j]).value);
      var d1 := InsertReps(tk, d, reps, 0, limit);
      InsertRepsSources(tk, d, reps, 0, limit);
      OverTagsSources(tk, table, core, atom, tags, j + 1, limit, d1);
      forall key | key in OverTags(tk, table, core, atom, tags, j, limit, d).value.keys
        ensures key in d.keys
                || exists t :: j <= t < |tags| && key in CandidateKeys(tk, table, core, atom, tags[t])
      {
        if key !in d.keys && key in d1.keys {
          assert key in CandidateKeys(tk, table, core, atom, tags[j]);
        }
      }
    }
  }

  lemma {:induction false} OverAtomsSources<M>(tk: Toolkit<M>, table: seq<(string, string)>, core: M,
                                               hs: seq<nat>, tags: seq<string>, limit: int, d: Products<M>,
                                               i: nat)
    requires OverAtoms(tk, table, core, hs, tags, limit, d, i).Ok?
    ensures forall key :: key in OverAtoms(tk, table, core, hs, tags, limit, d, i).value.keys ==>
              key in d.keys
              || exists a, t :: i <= a < |hs| && hs[a] > 0 && 0 <= t < |tags|
                                && key in CandidateKeys(tk, table, core, a, tags[t])
    decreases |hs| - i
  {
    if i < |hs| {
      if hs[i] == 0 {
        OverAtomsSources(tk, table, core, hs, tags, limit, d, i + 1);
      } else {
        var d' := OverTags(tk, table, core, i, tags, 0, limit, d).value;
        OverTagsSources(tk, table, core, i, tags, 0, limit, d);
        if |d'.keys| < limit {
          OverAtomsSources(tk, table, core, hs, tags, limit, d', i + 1);
        }
      }
    }
  }

  /** Every row is a candidate of a hydrogen-bearing atom and a requested
      tag: atoms without hydrogens contribute nothing. */
  lemma RowsComeFromHydrogenAtoms<M>(tk: Toolkit<M>, req: Request, core: M)
    requires tk.parse(req.smiles) == Some(core)
    requires RunSpec(tk, req).Rows?
    ensures var hs, tags := tk.hydrogens(core), EffectiveGroups(req.groups);
            forall n :: 0 <= n < |RunSpec(tk, req).rows| ==>
              exists a, t :: 0 <= a < |hs| && hs[a] > 0 && 0 <= t < |tags|
                             && RunSpec(tk, req).rows[n].smiles
                                in CandidateKeys(tk, FragmentTable.Table, core, a, tags[t])
  {
    var table := FragmentTable.Table;
    var hs, tags, limit := tk.hydrogens(core), EffectiveGroups(req.groups), EffectiveLimit(req.limit);
    EnumerateWellFormed(tk, table, core, hs, tags, limit);
    var d := Enumerate(tk, table, core, hs, tags, limit).value;
    ReportFollowsKeys(tk, d);
    OverAtomsSources(tk, table, core, hs, tags, limit, Empty(), 0);
    forall n | 0 <= n < |RunSpec(tk, req).rows|
      ensures exists a, t :: 0 <= a < |hs| && hs[a] > 0 && 0 <= t < |tags|
                             && RunSpec(tk, req).rows[n].smiles in CandidateKeys(tk, table, core, a, tags[t])
    {
      assert RunSpec(tk, req).rows[n].smiles == d.keys[n] && d.keys[n] in d.keys;
    }
  }

  /** The rows have pairwise distinct canonical notations, and each row's
      rule-of-five tally counts the thresholds its own fields exceed. */
  lemma RowsAreDistinctAndTallied<M>(tk: Toolkit<M>, req: Request)
    requires RunSpec(tk, req).Rows?
    ensures var rows := RunSpec(tk, req).rows;
            forall m, n :: 0 <= m < n < |rows| ==> rows[m].smiles != rows[n].smiles
    ensures forall row :: row in RunSpec(tk, req).rows ==>
              0 <= row.ro5 <= 4
              && row.ro5 == CountTrue(Violations(Props(row.mw, row.clogp, row.hbd, row.hba, row.qed)))
  {
    var table := FragmentTable.Table;
    var core := tk.parse(req.smiles).value;
    var hs, tags, limit := tk.hydrogens(core), EffectiveGroups(req.groups), EffectiveLimit(req.limit);
    EnumerateWellFormed(tk, table, core, hs, tags, limit);
    ReportFollowsKeys(tk, Enumerate(tk, table, core, hs, tags, limit).value);
  }

  // ---------------------------------------------------------------------
  // The limit

  lemma {:induction false} InsertRepsBound<M>(tk: Toolkit<M>, d: Products<M>, reps: seq<M>, k: nat, limit: int)
    ensures |InsertReps(tk, d, reps, k, limit).keys| <= Max(|d.keys| + 1, limit)
    decreases |reps| - k
  {
    if k < |reps| {
      var d' := Put(tk, d, tk.sanitize(reps[k]));
      InsertRepsBound(tk, d', reps, k + 1, limit);
    }
  }

  lemma {:induction false} OverTagsBound<M>(tk: Toolkit<M>, table: seq<(string, string)>, core: M, atom: nat,
                                            tags: seq<string>, j: nat, limit: int, d: Products<M>)
    requires j <= |tags|
    requires OverTags(tk, table, core, atom, tags, j, limit, d).Ok?
    ensures |OverTags(tk, table, core, atom, tags, j, limit, d).value.keys|
         <= Max(|d.keys|, limit - 1) + |tags| - j
    decreases |tags| - j
  {
    if j < |tags| {
      var reps := tk.replace(core, atom, Resolve(tk, table, tags[j]).value);
      InsertRepsBound(tk, d, reps, 0, limit);
      OverTagsBound(tk, table, core, atom, tags, j + 1, limit, InsertReps(tk, d, reps, 0, limit));
    }
  }

  lemma {:induction false} OverAtomsBound<M>(tk: Toolkit<M>, table: seq<(string, string)>, core: M,
                                             hs: seq<nat>, tags: seq<string>, limit: int, d: Products<M>,
                                             i: nat)
    requires |d.keys| < Max(limit, 1)
    requires OverAtoms(tk, table, core, hs, tags, limit, d, i).Ok?
    ensures |OverAtoms(tk, table, core, hs, tags, limit, d, i).value.keys| <= Max(limit, 1) + |tags| - 1
    decreases |hs| - i
  {
    if i < |hs| {
      if hs[i] == 0 {
        OverAtomsBound(tk, table, core, hs, tags, limit, d, i + 1);
      } else {
        var d' := OverTags(tk, table, core, i, tags, 0, limit, d).value;
        OverTagsBound(tk, table, core, i, tags, 0, limit, d);
        if |d'.keys| < limit {
          OverAtomsBound(tk, table, core, hs, tags, limit, d', i + 1);
        }
      }
    }
  }

  /** The limit bounds the rows only up to one extra row per remaining tag:
      at most max(limit, 1) + |groups| - 1 rows. */
  lemma RowCountBound<M>(tk: Toolkit<M>, req: Request)
    requires RunSpec(tk, req).Rows?
    ensures |RunSpec(tk, req).rows|
         <= Max(EffectiveLimit(req.limit), 1) + |EffectiveGroups(req.groups)| - 1
  {
    var table := FragmentTable.Table;
    var core := tk.parse(req.smiles).value;
    var hs, tags, limit := tk.hydrogens(core), EffectiveGroups(req.groups), EffectiveLimit(req.limit);
    EnumerateWellFormed(tk, table, core, hs, tags, limit);
    ReportFollowsKeys(tk, Enumerate(tk, table, core, hs, tags, limit).value);
    OverAtomsBound(tk, table, core, hs, tags, limit, Empty(), 0);
  }

  /** A parent whose atoms from `i` on carry no hydrogens adds nothing from them. */
  lemma {:induction false} BareAtomsSkipped<M>(tk: Toolkit<M>, table: seq<(string, string)>, core: M,
                                               hs: seq<nat>, tags: seq<string>, limit: int, d: Products<M>,
                                               i: nat)
    requires forall a :: i <= a < |hs| ==> hs[a] == 0
    ensures OverAtoms(tk, table, core, hs, tags, limit, d, i) == Ok(d)
    decreases |hs| - i
  {
    if i < |hs| {
      BareAtomsSkipped(tk, table, core, hs, tags, limit, d, i + 1);
    }
  }

  lemma {:induction false} OverAtomsPrefix<M>(tk: Toolkit<M>, table: seq<(string, string)>, core: M,
                                              hs: seq<nat>, tags: seq<string>, limit: int, d: Products<M>,
                                              i: nat, p: nat)
    requires i <= p <= |hs|
    requires exists j :: i <= j < p && hs[j] > 0
    requires OverAtoms(tk, table, core, hs[..p], tags, limit, d, i).Ok?
    requires |OverAtoms(tk, table, core, hs[..p], tags, limit, d, i).value.keys| >= limit
    ensures OverAtoms(tk, table, core, hs, tags, limit, d, i)
         == OverAtoms(tk, table, core, hs[..p], tags, limit, d, i)
    decreases p - i
  {
    if i < p {
      assert hs[..p][i] == hs[i];
      if hs[i] == 0 {
        OverAtomsPrefix(tk, table, core, hs, tags, limit, d, i + 1, p);
      } else if OverTags(tk, table, core, i, tags, 0, limit, d).Ok? {
        var d' := OverTags(tk, table, core, i, tags, 0, limit, d).value;
        if |d'.keys| < limit {
          if exists j :: i + 1 <= j < p && hs[j] > 0 {
            OverAtomsPrefix(tk, table, core, hs, tags, limit, d', i + 1, p);
          } else {
            BareAtomsSkipped(tk, table, core, hs[..p], tags, limit, d', i + 1);
            assert false;
          }
        }
      }
    }
  }

  /** Once the atoms up to some hydrogen-bearing atom fill the limit, no
      later atom is visited: the atoms after that prefix do not change the
      outcome. */
  lemma LaterAtomsNeverVisited<M>(tk: Toolkit<M>, table: seq<(string, string)>, core: M, hs: seq<nat>,
                                  tags: seq<string>, limit: int, p: nat)
    requires p <= |hs|
    requires exists j :: 0 <= j < p && hs[j] > 0
    requires Enumerate(tk, table, core, hs[..p], tags, limit).Ok?
    requires |Enumerate(tk, table, core, hs[..p], tags, limit).value.keys| >= limit
    ensures Enumerate(tk, table, core, hs, tags, limit) == Enumerate(tk, table, core, hs[..p], tags, limit)
  {
    OverAtomsPrefix(tk, table, core, hs, tags, limit, Empty(), 0, p);
  }

  // A toolkit over strings for the concrete scenario below: every string
  // parses to itself, a molecule has one atom with one hydrogen, the one
  // candidate of a replacement is the fragment itself, and canonical
  // notation is the string itself.
  function SelfParse(s: string): Option<string> { Some(s) }
  function OneHydrogen(m: string): seq<nat> { [1] }
  function FragmentOnly(core: string, atom: nat, frag: string): seq<string> { [frag] }
  function Same(m: string): string { m }
  function NoProps(m: string): Props { Props(0.0, 0.0, 0, 0, 0.0) }

  function Strings(): Toolkit<string>
  {
    Toolkit(SelfParse, OneHydrogen, FragmentOnly, Same, Same, NoProps)
  }

  /** The first two tags of the table resolve, under the string toolkit, to
      their fragments. */
  lemma FirstTwoTagsResolve()
    ensures Resolve(Strings(), FragmentTable.Table, "F") == Ok("*F")
    ensures Resolve(Strings(), FragmentTable.Table, "Cl") == Ok("*Cl")
  {
    assert FragmentTable.Table[0] == ("F", "*F") && FragmentTable.Table[1] == ("Cl", "*Cl");
  }

  /** Under the string toolkit with limit 1, the candidate "*F" fills the
      empty dictionary, and "*Cl" is still added after it. */
  lemma TwoCandidatesInserted()
    ensures InsertReps(Strings(), Empty(), FragmentOnly("C", 0, "*F"), 0, 1)
         == Products(["*F"], map["*F" := "*F"])
    ensures InsertReps(Strings(), Products(["*F"], map["*F" := "*F"]), FragmentOnly("C", 0, "*Cl"), 0, 1)
         == Products(["*F", "*Cl"], map["*F" := "*F", "*Cl" := "*Cl"])
  {
  }

  /** Both tags are visited at the one atom, the second after the limit is
      already reached. */
  lemma BothTagsInserted()
    ensures OverTags(Strings(), FragmentTable.Table, "C", 0, ["F", "Cl"], 0, 1, Empty())
         == Ok(Products(["*F", "*Cl"], map["*F" := "*F", "*Cl" := "*Cl"]))
  {
    var tags := ["F", "Cl"];
    FirstTwoTagsResolve();
    TwoCandidatesInserted();
    var d1 := Products(["*F"], map["*F" := "*F"]);
    assert OverTags(Strings(), FragmentTable.Table, "C", 0, tags, 1, 1, d1)
        == Ok(Products(["*F", "*Cl"], map["*F" := "*F", "*Cl" := "*Cl"]));
  }

  /** The result can exceed the limit: limit 1, one hydrogen-bearing atom and
      the tags "F" and "Cl" give two rows. */
  lemma LimitCanBeExceeded()
    ensures var resp := RunSpec(Strings(), Request("C", Some(["F", "Cl"]), Some(1)));
            resp.Rows? && |resp.rows| == 2
  {
    BothTagsInserted();
  }

  // A second string toolkit: each replacement offers two candidates, the
  // fragment itself and a variant of it marked by a trailing "x".
  function FragmentAndVariant(core: string, atom: nat, frag: string): seq<string> { [frag, frag + "x"] }

  function TwoVariants(): Toolkit<string>
  {
    Toolkit(SelfParse, OneHydrogen, FragmentAndVariant, Same, Same, NoProps)
  }

  /** Under the two-candidate toolkit, "F" and "Cl" resolve to their
      fragments. */
  lemma VariantsResolve()
    ensures Resolve(TwoVariants(), FragmentTable.Table, "F") == Ok("*F")
    ensures Resolve(TwoVariants(), FragmentTable.Table, "Cl") == Ok("*Cl")
  {
    assert FragmentTable.Table[0] == ("F", "*F") && FragmentTable.Table[1] == ("Cl", "*Cl");
  }

  /** With limit 1, each tag keeps only its first candidate: "*F" fills the
      dictionary, then "*Cl" is still added. */
  lemma FirstCandidatePerTag()
    ensures InsertReps(TwoVariants(), Empty(), ["*F", "*Fx"], 0, 1) == Products(["*F"], map["*F" := "*F"])
    ensures InsertReps(TwoVariants(), Products(["*F"], map["*F" := "*F"]), ["*Cl", "*Clx"], 0, 1)
         == Products(["*F", "*Cl"], map["*F" := "*F", "*Cl" := "*Cl"])
  {
  }

  /** Under the two-candidate toolkit, a tag that resolves to `frag` offers
      the keys `frag` and `frag + "x"`, in that order. */
  lemma {:induction false} VariantKeys(table: seq<(string, string)>, tag: string, frag: string)
    requires Resolve(TwoVariants(), table, tag) == Ok(frag)
    ensures CandidateKeys(TwoVariants(), table, "C", 0, tag) == [frag, frag + "x"]
  {
    var reps := FragmentAndVariant("C", 0, frag);
    assert KeysOf(TwoVariants(), reps, 2) == [];
    assert KeysOf(TwoVariants(), reps, 1) == [frag + "x"];
  }

  /** The traversal at the one atom offers "*F", "*Fx", "*Cl", "*Clx". */
  lemma {:induction false} VariantsTrace(table: seq<(string, string)>)
    requires Resolve(TwoVariants(), table, "F") == Ok("*F")
    requires Resolve(TwoVariants(), table, "Cl") == Ok("*Cl")
    ensures TraceKeys(TwoVariants(), table, "C", [1], ["F", "Cl"], 0) == ["*F", "*Fx", "*Cl", "*Clx"]
  {
    var tk, tags := TwoVariants(), ["F", "Cl"];
    VariantKeys(table, "F", "*F");
    VariantKeys(table, "Cl", "*Cl");
    assert "*F" + "x" == "*Fx" && "*Cl" + "x" == "*Clx";
    assert TagKeys(tk, table, "C", 0, tags, 2) == [];
    assert TagKeys(tk, table, "C", 0, tags, 1) == ["*Cl", "*Clx"];
    assert TagKeys(tk, table, "C", 0, tags, 0) == ["*F", "*Fx"] + ["*Cl", "*Clx"];
    assert TraceKeys(tk, table, "C", [1], tags, 1) == [];
  }

  /** With limit 1, the enumeration keeps "*F" and "*Cl". */
  lemma {:induction false} VariantsKept(table: seq<(string, string)>)
    requires Resolve(TwoVariants(), table, "F") == Ok("*F")
    requires Resolve(TwoVariants(), table, "Cl") == Ok("*Cl")
    ensures Enumerate(TwoVariants(), table, "C", [1], ["F", "Cl"], 1)
         == Ok(Products(["*F", "*Cl"], map["*F" := "*F", "*Cl" := "*Cl"]))
  {
    var tk, tags := TwoVariants(), ["F", "Cl"];
    FirstCandidatePerTag();
    assert "*F" + "x" == "*Fx" && "*Cl" + "x" == "*Clx";
    var d1 := Products(["*F"], map["*F" := "*F"]);
    var d2 := Products(["*F", "*Cl"], map["*F" := "*F", "*Cl" := "*Cl"]);
    assert FragmentAndVariant("C", 0, "*F") == ["*F", "*Fx"];
    assert FragmentAndVariant("C", 0, "*Cl") == ["*Cl", "*Clx"];
    assert OverTags(tk, table, "C", 0, tags, 2, 1, d2) == Ok(d2);
    assert OverTags(tk, table, "C", 0, tags, 1, 1, d1) == Ok(d2);
    assert OverTags(tk, table, "C", 0, tags, 0, 1, Empty()) == Ok(d2);
  }

  /** Two distinct leading keys take the first two places of the insertion
      order, whatever follows them. */
  lemma {:induction false} TwoDistinctLead(x: string, y: string, rest: seq<string>)
    requires x != y
    ensures var order := Absorb([], [x, y] + rest);
            |order| >= 2 && order[0] == x && order[1] == y
  {
    assert [x, y][1..] == [y] && [y][1..] == [];
    assert y !in [x];
    var none: seq<string> := [];
    assert none + [x] == [x] && [x] + [y] == [x, y];
    assert Absorb([x], [y]) == Absorb([x, y], []);
    assert Absorb(none, [x, y]) == Absorb([x], [y]);
    AbsorbAppend([], [x, y], rest);
  }

  /** The insertion order of the traversal "*F", "*Fx", "*Cl", "*Clx" has
      "*Fx" second. */
  lemma VariantsOrder()
    ensures var order := Absorb([], ["*F", "*Fx", "*Cl", "*Clx"]);
            |order| >= 2 && order[1] == "*Fx"
  {
    assert |"*F"| != |"*Fx"|;
    TwoDistinctLead("*F", "*Fx", ["*Cl", "*Clx"]);
    assert ["*F", "*Fx"] + ["*Cl", "*Clx"] == ["*F", "*Fx", "*Cl", "*Clx"];
  }

  /** With limit 1 and the tags "F" and "Cl", the two-candidate toolkit
      answers the rows "*F" and "*Cl". */
  lemma VariantsRows()
    ensures var resp := RunSpec(TwoVariants(), Request("C", Some(["F", "Cl"]), Some(1)));
            resp.Rows? && |resp.rows| == 2 && resp.rows[0].smiles == "*F" && resp.rows[1].smiles == "*Cl"
  {
    VariantsResolve();
    VariantsKept(FragmentTable.Table);
    var d2 := Products(["*F", "*Cl"], map["*F" := "*F", "*Cl" := "*Cl"]);
    assert RunSpec(TwoVariants(), Request("C", Some(["F", "Cl"]), Some(1))) == Rows(Report(TwoVariants(), d2));
  }

  /** Once the limit is reached, the rows are not the first keys of the
      traversal: with limit 1 and the tags "F" and "Cl", the rows are "*F"
      and "*Cl", while the traversal's second key is "*Fx". */
  lemma KeptRowsAreNotATraversalPrefix()
    ensures var resp := RunSpec(TwoVariants(), Request("C", Some(["F", "Cl"]), Some(1)));
            resp.Rows? && |resp.rows| == 2 && resp.rows[0].smiles == "*F" && resp.rows[1].smiles == "*Cl"
    ensures var order := Absorb([], TraceKeys(TwoVariants(), FragmentTable.Table, "C", [1], ["F", "Cl"], 0));
            |order| >= 2 && order[1] == "*Fx"
  {
    VariantsRows();
    VariantsResolve();
    VariantsTrace(FragmentTable.Table);
    VariantsOrder();
  }

  /** A missing limit is the default 200: the answer is that of an explicit
      limit of 200. */
  lemma MissingLimitMeansDefault<M>(tk: Toolkit<M>, smiles: string, groups: Option<seq<string>>)
    ensures RunSpec(tk, Request(smiles, groups, None)) == RunSpec(tk, Request(smiles, groups, Some(200)))
    ensures DefaultLimit == 200
  {
  }

  // ---------------------------------------------------------------------
  // Failures

  lemma {:induction false} OverTagsFailure<M>(tk: Toolkit<M>, table: seq<(string, string)>, core: M,
                                              atom: nat, tags: seq<string>, j: nat, limit: int, d: Products<M>)
    requires j <= |tags|
    ensures OverTags(tk, table, core, atom, tags, j, limit, d).Err? <==> FirstFailing(tk, table, tags, j) < |tags|
    ensures OverTags(tk, table, core, atom, tags, j, limit, d).Err? ==>
              OverTags(tk, table, core, atom, tags, j, limit, d).failure
              == Resolve(tk, table, tags[FirstFailing(tk, table, tags, j)]).failure
    decreases |tags| - j
  {
    if j < |tags| && Resolve(tk, table, tags[j]).Ok? {
      var reps := tk.replace(core, atom, Resolve(tk, table, tags[j]).value);
      OverTagsFailure(tk, table, core, atom, tags, j + 1, limit, InsertReps(tk, d, reps, 0, limit));
    }
  }

  /** Whether some atom from `i` on carries hydrogens. */
  predicate SomeHydrogens(hs: seq<nat>, i: nat)
  {
    exists a :: i <= a < |hs| && hs[a] > 0
  }

  lemma {:induction false} OverAtomsFailure<M>(tk: Toolkit<M>, table: seq<(string, string)>, core: M,
                                               hs: seq<nat>, tags: seq<string>, limit: int, d: Products<M>,
                                               i: nat)
    ensures OverAtoms(tk, table, core, hs, tags, limit, d, i).Err? <==>
              FirstFailing(tk, table, tags, 0) < |tags| && SomeHydrogens(hs, i)
    ensures OverAtoms(tk, table, core, hs, tags, limit, d, i).Err? ==>
              OverAtoms(tk, table, core, hs, tags, limit, d, i).failure
              == Resolve(tk, table, tags[FirstFailing(tk, table, tags, 0)]).failure
    decreases |hs| - i
  {
    if i < |hs| {
      if hs[i] == 0 {
        OverAtomsFailure(tk, table, core, hs, tags, limit, d, i + 1);
        assert SomeHydrogens(hs, i) ==> SomeHydrogens(hs, i + 1);
      } else {
        OverTagsFailure(tk, table, core, i, tags, 0, limit, d);
        assert SomeHydrogens(hs, i);
        var t := OverTags(tk, table, core, i, tags, 0, limit, d);
        if t.Ok? {
          OverAtomsFailure(tk, table, core, hs, tags, limit, t.value, i + 1);
        }
      }
    }
  }

  /** Once the parent parses, the request fails exactly when some atom
      carries hydrogens and some requested tag does not resolve; it then
      fails with status 500 and the failure of the first such tag. A tag is
      only looked up at a hydrogen-bearing atom, so on a parent without
      hydrogens no tag is ever looked up. */
  lemma UnresolvedTagIsServerError<M>(tk: Toolkit<M>, req: Request, core: M)
    requires tk.parse(req.smiles) == Some(core)
    ensures var hs, tags := tk.hydrogens(core), EffectiveGroups(req.groups);
            RunSpec(tk, req).Error? <==>
              FirstFailing(tk, FragmentTable.Table, tags, 0) < |tags| && exists a :: 0 <= a < |hs| && hs[a] > 0
    ensures var tags := EffectiveGroups(req.groups);
            RunSpec(tk, req).Error? ==>
              var first := FirstFailing(tk, FragmentTable.Table, tags, 0);
              RunSpec(tk, req) == Error(500, Resolve(tk, FragmentTable.Table, tags[first]).failure)
  {
    var table := FragmentTable.Table;
    var hs, tags, limit := tk.hydrogens(core), EffectiveGroups(req.groups), EffectiveLimit(req.limit);
    OverAtomsFailure(tk, table, core, hs, tags, limit, Empty(), 0);
    if FirstFailing(tk, table, tags, 0) < |tags| {
      ResolveFailures(tk, table, tags[FirstFailing(tk, table, tags, 0)]);
    }
  }

  /** An unparsable parent is the client error, whatever the tags and limit;
      no other failure has status 400. */
  lemma BadSmilesIsTheOnlyClientError<M>(tk: Toolkit<M>, req: Request)
    ensures tk.parse(req.smiles).None? ==> RunSpec(tk, req) == Error(400, BadSmiles)
    ensures RunSpec(tk, req).Error? && RunSpec(tk, req).status == 400 ==> tk.parse(req.smiles).None?
  {
    if tk.parse(req.smiles).Some? {
      UnresolvedTagIsServerError(tk, req, tk.parse(req.smiles).value);
    }
  }

  /** A requested tag missing from the table (compared exactly) is an error
      of the whole request, not a skipped tag, once the lookup is reached. */
  lemma UnknownTagIsNotSkipped<M>(tk: Toolkit<M>, req: Request, core: M, j: nat)
    requires tk.parse(req.smiles) == Some(core)
    requires exists a :: 0 <= a < |tk.hydrogens(core)| && tk.hydrogens(core)[a] > 0
    requires req.groups.Some? && j < |req.groups.value|
    requires req.groups.value[j] !in FragmentTable.Tags()
    requires forall k :: 0 <= k < j ==> Resolve(tk, FragmentTable.Table, req.groups.value[k]).Ok?
    ensures RunSpec(tk, req) == Error(500, UnknownTag(req.groups.value[j]))
  {
    var table := FragmentTable.Table;
    var tags := req.groups.value;
    ResolveFailures(tk, table, tags[j]);
    UnresolvedTagIsServerError(tk, req, core);
    assert FirstFailing(tk, table, tags, 0) == j;
  }

  /** A parent without hydrogen-bearing atoms yields no rows and no error,
      whatever tags are requested. */
  lemma NoHydrogensNoRows<M>(tk: Toolkit<M>, req: Request, core: M)
    requires tk.parse(req.smiles) == Some(core)
    requires forall a :: 0 <= a < |tk.hydrogens(core)| ==> tk.hydrogens(core)[a] == 0
    ensures RunSpec(tk, req) == Rows([])
  {
    var table := FragmentTable.Table;
    var hs, tags, limit := tk.hydrogens(core), EffectiveGroups(req.groups), EffectiveLimit(req.limit);
    BareAtomsSkipped(tk, table, core, hs, tags, limit, Empty(), 0);
  }

  /** An empty tag list is not "no substitutions": it asks for every tag,
      exactly as an omitted list does. */
  lemma EmptyGroupsMeanAllTags<M>(tk: Toolkit<M>, smiles: string, limit: Option<int>)
    ensures RunSpec(tk, Request(smiles, Some([]), limit)) == RunSpec(tk, Request(smiles, None, limit))
    ensures EffectiveGroups(Some([])) == FragmentTable.Tags() && |FragmentTable.Tags()| == 31
  {
    FragmentTable.TableHasDistinctTags();
  }
}
