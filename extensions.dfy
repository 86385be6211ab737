/** QueryExtensions: a Python `Flag` over SITE, QUOTES and PAGING, kept as the bit pattern
    the flag holds. `a in b` on flags is `a & b == a`; the set view `Members` shows that this
    is the subset test the engine filter relies on. */
module Extensions {

  datatype Extension = Site | Quotes | Paging

  type QueryExtensions = bv3

  /** The empty flag, `QueryExtensions(0)`. */
  const NoExtensions: QueryExtensions := 0

  function Bit(e: Extension): QueryExtensions
  {
    match e
    case Site => 1
    case Quotes => 2
    case Paging => 4
  }

  /** The extensions a flag value holds. */
  function Members(f: QueryExtensions): set<Extension>
  {
    set e: Extension | f & Bit(e) != 0
  }

  /** Python's `g in f` for flags: every bit of `g` is set in `f`. */
  predicate Contains(f: QueryExtensions, g: QueryExtensions)
  {
    g & f == g
  }

  lemma MembersBits(f: QueryExtensions)
    ensures Site in Members(f) <==> f & 1 != 0
    ensures Quotes in Members(f) <==> f & 2 != 0
    ensures Paging in Members(f) <==> f & 4 != 0
  {
  }

  /** Flag containment is exactly inclusion of the member sets. */
  lemma ContainsIsSubset(f: QueryExtensions, g: QueryExtensions)
    ensures Contains(f, g) <==> Members(g) <= Members(f)
  {
    MembersBits(f);
    MembersBits(g);
  }

  lemma ContainsIsSubsetAll()
    ensures forall f, g :: Contains(f, g) <==> Members(g) <= Members(f)
  {
    forall f, g ensures Contains(f, g) <==> Members(g) <= Members(f) {
      ContainsIsSubset(f, g);
    }
  }

  /** `f | g` on flags is the union of the members. */
  lemma UnionMembers(f: QueryExtensions, g: QueryExtensions)
    ensures Members(f | g) == Members(f) + Members(g)
  {
    MembersBits(f);
    MembersBits(g);
    MembersBits(f | g);
  }

  /** A flag value is determined by its members, so the set view loses nothing. */
  lemma MembersDetermineFlag(f: QueryExtensions, g: QueryExtensions)
    requires Members(f) == Members(g)
    ensures f == g
  {
    MembersBits(f);
    MembersBits(g);
  }
}
