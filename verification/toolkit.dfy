/** The chemistry toolkit the enumerator delegates to, as uninterpreted inputs.
    Molecules are an opaque type parameter `M`; every toolkit call the
    service makes is a total function value, so no property proved about
    the enumerator depends on what the chemistry does. */
module Toolkit {

  datatype Option<T> = None | Some(value: T)

  /** The numeric descriptors the toolkit computes for one molecule:
      molecular weight, Crippen logP, H-bond donor and acceptor counts and
      the QED drug-likeness score. */
  datatype Props = Props(mw: real, clogp: real, hbd: nat, hba: nat, qed: real)

  /** One value per toolkit call the service makes:
      - `parse`: line notation to molecule, `None` when parsing fails;
      - `hydrogens`: the total hydrogen count of every atom, in atom-index order;
      - `replace`: the candidate products of replacing the atom at the given
        index of the first molecule by the second (a fragment), zero or more;
      - `sanitize`: the molecule after sanitization with errors caught
        (whatever state it is left in);
      - `canonical`: the canonical, stereo-aware line notation;
      - `props`: the descriptors of a molecule. */
  datatype Toolkit<!M> = Toolkit(
    parse: string -> Option<M>,
    hydrogens: M -> seq<nat>,
    replace: (M, nat, M) -> seq<M>,
    sanitize: M -> M,
    canonical: M -> string,
    props: M -> Props)
}
