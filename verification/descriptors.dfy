/** The descriptor record of one product (`desc`, enumerator.py:37-47): the
    toolkit's numbers plus the rule-of-five violation tally. */
module Descriptors {

  import opened Toolkit

  /** One output row: canonical line notation, the five toolkit descriptors
      and the number of rule-of-five thresholds exceeded. */
  datatype Descriptor = Descriptor(
    smiles: string, mw: real, clogp: real, hbd: nat, hba: nat, qed: real, ro5: int)

  /** The four rule-of-five tests, each true when its threshold is exceeded:
      weight over 500, logP over 5, more than 5 donors, more than 10 acceptors. */
  function Violations(p: Props): (r: seq<bool>)
    ensures |r| == 4
  {
    [p.mw > 500.0, p.clogp > 5.0, p.hbd > 5, p.hba > 10]
  }

  /** How many entries of `s` are true. */
  function CountTrue(s: seq<bool>): (n: nat)
    ensures n <= |s|
  {
    if s == [] then 0 else (if s[0] then 1 else 0) + CountTrue(s[1..])
  }

  /** The source's tally: four booleans summed as integers (a Python `bool`
      is the integer 0 or 1). */
  function Ro5(p: Props): (r: int)
    ensures 0 <= r <= 4
    ensures r == 0 <==> (p.mw <= 500.0 && p.clogp <= 5.0 && p.hbd <= 5 && p.hba <= 10)
    ensures r == 4 <==> (p.mw > 500.0 && p.clogp > 5.0 && p.hbd > 5 && p.hba > 10)
  {
    (if p.mw > 500.0 then 1 else 0) + (if p.clogp > 5.0 then 1 else 0)
    + (if p.hbd > 5 then 1 else 0) + (if p.hba > 10 then 1 else 0)
  }

  /** The tally is the number of the four tests that hold. */
  lemma Ro5CountsViolations(p: Props)
    ensures Ro5(p) == CountTrue(Violations(p))
  {
    var v := Violations(p);
    assert CountTrue(v[3..]) == (if v[3] then 1 else 0) by {
      assert v[3..][1..] == [];
    }
    assert CountTrue(v[2..]) == (if v[2] then 1 else 0) + CountTrue(v[3..]) by {
      assert v[2..][1..] == v[3..];
    }
    assert CountTrue(v[1..]) == (if v[1] then 1 else 0) + CountTrue(v[2..]) by {
      assert v[1..][1..] == v[2..];
    }
  }

  /** `desc(m)`: the row of one molecule; its `smiles` is the molecule's
      canonical line notation. */
  function Describe<M>(tk: Toolkit<M>, m: M): (d: Descriptor)
    ensures d.smiles == tk.canonical(m)
    ensures d.ro5 == CountTrue(Violations(tk.props(m)))
    ensures (d.mw, d.clogp, d.hbd, d.hba, d.qed)
         == (tk.props(m).mw, tk.props(m).clogp, tk.props(m).hbd, tk.props(m).hba, tk.props(m).qed)
  {
    Ro5CountsViolations(tk.props(m));
    var p := tk.props(m);
    Descriptor(tk.canonical(m), p.mw, p.clogp, p.hbd, p.hba, p.qed, Ro5(p))
  }
}
