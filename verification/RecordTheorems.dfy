/** The promises of the identity-record format: what texts the parser accepts, that the canonical form
    is the tag map and nothing else, and the round trips. */
module RecordTheorems {
  import opened Texts
  import opened Sorting
  import opened Records
  import opened RecordFacts

  // ---- The accepted language ----

  /** A record on the wire: elements in any order after the version, one space or none after each
      semicolon, a semicolon at the end or none. */
  function Wire(pairs: seq<Pair>, spaces: seq<bool>, trailing: bool): string
    requires |spaces| == |pairs|
  {
    Join(WireElements(pairs, spaces) + (if trailing then [""] else []), ';')
  }

  predicate WellFormed(pairs: seq<Pair>) {
    && ValidPairs(pairs)
    && pairs != [] && pairs[0].tag == "v" && Supported(pairs[0].value)
    && HasRequired(pairs, false) && NoEmptyRequired(pairs)
  }

  predicate Layout(pairs: seq<Pair>, spaces: seq<bool>) {
    |spaces| == |pairs| && (pairs != [] ==> !spaces[0])
  }

  lemma SplitWire(pairs: seq<Pair>, spaces: seq<bool>, trailing: bool)
    requires ValidPairs(pairs) && pairs != [] && Layout(pairs, spaces)
    ensures Split(Wire(pairs, spaces, trailing), ';') == WireElements(pairs, spaces) + (if trailing then [""] else [])
    ensures Body(Split(Wire(pairs, spaces, trailing), ';')) == WireElements(pairs, spaces)
  {
    hide Split, Join, ValidPair, Element;
    var elements := WireElements(pairs, spaces);
    var parts := elements + (if trailing then [""] else []);
    forall i | 0 <= i < |elements|
      ensures ';' !in elements[i] && elements[i] != []
    {
      ElementHasNoSemicolon(pairs[i], spaces[i]);
    }
    SplitOfJoin(parts, ';');
    if trailing {
      assert parts[..|parts| - 1] == elements;
    }
  }

  lemma StripNothing(p: Pair)
    requires ValidPair(p)
    ensures Strip(Render(p)) == Render(p)
  {
  }

  lemma VersionElement(p: Pair)
    requires ValidPair(p)
    ensures CheckVersion(Render(p)).Ok? <==> p.tag == "v" && Supported(p.value)
  {
    hide Strip, Supported;
    StripNothing(p);
    NameHasNoEquals(p.tag);
    RenderParts(p);
    if p.tag == "v" {
      assert Render(p) == "v=" + p.value;
      assert Render(p)[2..] == p.value;
    }
  }

  lemma RequiredFilledMeans(pairs: seq<Pair>)
    requires DistinctTags(pairs) && HasRequired(pairs, false)
    ensures RequiredFilled(Build(pairs)) <==> NoEmptyRequired(pairs)
  {
    hide Get, Build, Required, Optional;
    forall i | 0 <= i < |pairs| && Required(pairs[i].tag)
      ensures Get(Build(pairs), pairs[i].tag) == pairs[i].value && pairs[i].tag in KNOWN_ORDER
    {
      KnownOrderIsKnown(pairs[i].tag);
      BuildFields(pairs, pairs[i].tag);
    }
    forall t | t in KNOWN_ORDER && Required(t)
      ensures exists i | 0 <= i < |pairs| :: pairs[i].tag == t
    {
      assert HasTag(pairs, t);
    }
  }

  /** Every well-formed list of pairs is accepted in every layout, and read as itself. */
  lemma ParseAccepts(pairs: seq<Pair>, spaces: seq<bool>, trailing: bool)
    requires WellFormed(pairs) && Layout(pairs, spaces)
    ensures Parse(Wire(pairs, spaces, trailing)) == Ok(Build(pairs))
  {
    hide Wire, Split, Build, HasRequired, RequiredFilled, NoEmptyRequired, ParseElements, CheckVersion, Supported,
         ValidPair;
    SplitWire(pairs, spaces, trailing);
    ElementsAccept(pairs, spaces, false);
    VersionElement(pairs[0]);
    assert WireElements(pairs, spaces)[0] == Render(pairs[0]);
    RequiredFilledMeans(pairs);
  }

  /** The pairs of a text, as the parser reads them. */
  function PairsOf(raw: string, unsigned: bool): seq<Pair>
    requires ParseElements(Body(Split(raw, ';')), unsigned).Ok?
  {
    ParseElements(Body(Split(raw, ';')), unsigned).value
  }

  /** Whatever passes the element checks is a layout of its pairs. */
  lemma ElementsLayout(raw: string, unsigned: bool)
    requires ParseElements(Body(Split(raw, ';')), unsigned).Ok?
    ensures var elements := Body(Split(raw, ';'));
            && ValidPairs(PairsOf(raw, unsigned))
            && Layout(PairsOf(raw, unsigned), SpacesOf(elements))
            && elements == WireElements(PairsOf(raw, unsigned), SpacesOf(elements))
            && raw == Wire(PairsOf(raw, unsigned), SpacesOf(elements), elements != Split(raw, ';'))
  {
    hide Split, Join, ParseElements, ValidPairs, Element;
    var all := Split(raw, ';');
    var elements := Body(all);
    ElementsMean(elements, unsigned);
    JoinOfSplit(raw, ';');
    if elements != all {
      assert all == elements + [""];
    } else {
      assert elements == elements + [];
    }
  }

  /** An accepted text is a layout of well-formed pairs, and read as them. */
  lemma ParseMeans(raw: string)
    ensures Parse(raw).Ok? ==>
              && ParseElements(Body(Split(raw, ';')), false).Ok? && Parse(raw) == Ok(Build(PairsOf(raw, false)))
              && WellFormed(PairsOf(raw, false))
              && exists spaces, trailing ::
                   Layout(PairsOf(raw, false), spaces) && raw == Wire(PairsOf(raw, false), spaces, trailing)
  {
    hide Parse, WellFormed, Wire, Split, Build, ParseElements;
    if Parse(raw).Ok? {
      AcceptedPairs(raw);
    }
  }

  lemma AcceptedPairs(raw: string)
    requires Parse(raw).Ok?
    ensures ParseElements(Body(Split(raw, ';')), false).Ok? && Parse(raw) == Ok(Build(PairsOf(raw, false)))
    ensures WellFormed(PairsOf(raw, false))
    ensures exists spaces, trailing ::
              Layout(PairsOf(raw, false), spaces) && raw == Wire(PairsOf(raw, false), spaces, trailing)
  {
    hide Wire, Split, Build, HasRequired, RequiredFilled, NoEmptyRequired, ParseElements, CheckVersion, Supported,
         ValidPair;
    ElementsLayout(raw, false);
    var all := Split(raw, ';');
    var elements := Body(all);
    var pairs := PairsOf(raw, false);
    RequiredFilledMeans(pairs);
    if pairs == [] {
      NothingRequired(pairs);
    } else {
      assert all[0] == elements[0] == Render(pairs[0]);
      VersionElement(pairs[0]);
    }
  }

  lemma NothingRequired(pairs: seq<Pair>)
    requires pairs == []
    ensures !HasRequired(pairs, false)
  {
    assert "v" == KNOWN_ORDER[0] && !HasTag(pairs, "v");
  }

  /** The parser accepts exactly the layouts of well-formed lists of pairs. */
  lemma ParseAcceptsExactly(raw: string)
    ensures Parse(raw).Ok? <==>
            exists pairs, spaces, trailing ::
                WellFormed(pairs) && Layout(pairs, spaces) && raw == Wire(pairs, spaces, trailing)
  {
    hide WellFormed, Wire, Parse, Build;
    if Parse(raw).Ok? {
      ParseMeans(raw);
    }
    if pairs, spaces, trailing :| WellFormed(pairs) && Layout(pairs, spaces) && raw == Wire(pairs, spaces, trailing) {
      ParseAccepts(pairs, spaces, trailing);
    }
  }

  // ---- The canonical form ----

  lemma {:induction false} WithoutRendered(pairs: seq<Pair>, tag: string)
    requires '=' !in tag && forall p | p in pairs :: '=' !in p.tag
    ensures Without(RenderAll(pairs), tag + "=") == RenderAll(DropTag(pairs, tag))
  {
    hide Render;
    if pairs != [] {
      var rest := pairs[1..];
      assert pairs == [pairs[0]] + rest && pairs[0] in pairs;
      assert RenderAll(pairs)[1..] == RenderAll(rest);
      WithoutRendered(rest, tag);
      PrefixIsTheTag(pairs[0], tag);
      assert RenderAll([pairs[0]] + DropTag(rest, tag)) == [Render(pairs[0])] + RenderAll(DropTag(rest, tag));
      assert [] + DropTag(rest, tag) == DropTag(rest, tag);
    }
  }

  lemma PrefixIsTheTag(p: Pair, tag: string)
    requires '=' !in tag && '=' !in p.tag
    ensures tag + "=" <= Render(p) <==> p.tag == tag
  {
    hide Find;
    RenderParts(p);
    var s := Render(p);
    if tag + "=" <= s {
      var tail := s[|tag| + 1..];
      assert s[..|tag| + 1] == tag + "=";
      assert s == tag + ['='] + tail;
      FindAfter(tag, '=', tail);
      assert s[..|tag|] == tag;
    }
  }

  lemma RenderedKeys(pairs: seq<Pair>)
    requires DistinctTags(pairs) && forall p | p in pairs :: '=' !in p.tag
    ensures DistinctKeys(RenderAll(pairs), true)
  {
    hide Render, Key;
    forall i | 0 <= i < |pairs|
      ensures Key(Render(pairs[i]), true) == pairs[i].tag
    {
      assert pairs[i] in pairs;
      RenderParts(pairs[i]);
    }
  }

  lemma RenderedElements(a: seq<Pair>, b: seq<Pair>)
    requires forall p | p in a :: '=' !in p.tag
    requires forall p | p in b :: '=' !in p.tag
    ensures Elements(RenderAll(a)) == Elements(RenderAll(b)) <==> SamePairs(a, b)
  {
    hide Render;
    if Elements(RenderAll(a)) == Elements(RenderAll(b)) {
      RenderedSubset(a, b);
      RenderedSubset(b, a);
    } else {
      assert SamePairs(a, b) ==> Elements(RenderAll(a)) == Elements(RenderAll(b)) by {
        if SamePairs(a, b) {
          SubsetRendered(a, b);
          SubsetRendered(b, a);
        }
      }
    }
  }

  lemma RenderedSubset(a: seq<Pair>, b: seq<Pair>)
    requires forall p | p in a :: '=' !in p.tag
    requires forall p | p in b :: '=' !in p.tag
    requires Elements(RenderAll(a)) <= Elements(RenderAll(b))
    ensures forall p | p in a :: p in b
  {
    hide Render;
    forall p | p in a
      ensures p in b
    {
      var i :| 0 <= i < |a| && a[i] == p;
      assert RenderAll(a)[i] in Elements(RenderAll(b));
      var j :| 0 <= j < |b| && RenderAll(b)[j] == Render(p);
      assert b[j] in b;
      RenderInjective(p, b[j]);
    }
  }

  lemma SubsetRendered(a: seq<Pair>, b: seq<Pair>)
    requires forall p | p in a :: p in b
    ensures Elements(RenderAll(a)) <= Elements(RenderAll(b))
  {
    hide Render;
    forall x | x in Elements(RenderAll(a))
      ensures x in Elements(RenderAll(b))
    {
      var i :| 0 <= i < |a| && RenderAll(a)[i] == x;
      assert a[i] in b;
      var j :| 0 <= j < |b| && b[j] == a[i];
      assert RenderAll(b)[j] == x;
    }
  }

  /** The pairs a record signs. */
  function SignedPairs(r: Record): seq<Pair> {
    DropTag(AllPairs(r), "sg")
  }

  lemma CanonicalOfSigned(r: Record)
    requires forall p | p in AllPairs(r) :: '=' !in p.tag
    ensures Canonical(r) == Join(Sort(RenderAll(SignedPairs(r)), true), ';')
  {
    hide Sort, Join, AllPairs;
    WithoutRendered(AllPairs(r), "sg");
    assert "sg" + "=" == "sg=";
  }

  /** The canonical form is injective on what it signs: for records with valid, distinct tags two
      canonical forms are equal exactly when the same pairs are signed. */
  lemma CanonicalSignsThePairs(r: Record, q: Record)
    requires ValidPairs(AllPairs(r)) && ValidPairs(AllPairs(q))
    requires SignedPairs(r) != [] && SignedPairs(q) != []
    ensures Canonical(r) == Canonical(q) <==> SamePairs(SignedPairs(r), SignedPairs(q))
  {
    hide Sort, Join, AllPairs, Canonical, ValidName, ValidValue, SamePairs, Elements;
    var a, b := SignedPairs(r), SignedPairs(q);
    NamesOf(AllPairs(r));
    NamesOf(AllPairs(q));
    CanonicalOfSigned(r);
    CanonicalOfSigned(q);
    DropTagKeeps(AllPairs(r), "sg");
    DropTagKeeps(AllPairs(q), "sg");
    RenderedKeys(a);
    RenderedKeys(b);
    SortForgetsOrder(RenderAll(a), RenderAll(b), true);
    RenderedElements(a, b);
    if Canonical(r) == Canonical(q) {
      SortedParts(a);
      SortedParts(b);
      JoinInjective(Sort(RenderAll(a), true), Sort(RenderAll(b), true), ';');
    }
  }

  lemma NamesOf(pairs: seq<Pair>)
    requires ValidPairs(pairs)
    ensures forall p | p in pairs :: '=' !in p.tag
    ensures forall p | p in DropTag(pairs, "sg") :: '=' !in p.tag
  {
  }

  /** The sorted items are as many as the pairs and hold no semicolon. */
  lemma SortedParts(pairs: seq<Pair>)
    requires ValidPairs(pairs)
    ensures |Sort(RenderAll(pairs), true)| == |pairs|
    ensures forall i | 0 <= i < |Sort(RenderAll(pairs), true)| :: ';' !in Sort(RenderAll(pairs), true)[i]
  {
    hide Sort, Render, ValidPair;
    forall p | p in pairs
      ensures '=' !in p.tag && ';' !in Render(p)
    {
      NameOfPair(p);
    }
    RenderedKeys(pairs);
    SortIncreasing(RenderAll(pairs), true);
    var sorted := Sort(RenderAll(pairs), true);
    forall i | 0 <= i < |sorted|
      ensures ';' !in sorted[i]
    {
      assert sorted[i] in Elements(RenderAll(pairs));
      var j :| 0 <= j < |pairs| && RenderAll(pairs)[j] == sorted[i];
      assert pairs[j] in pairs;
    }
  }

  lemma NameOfPair(p: Pair)
    requires ValidPair(p)
    ensures '=' !in p.tag && ';' !in Render(p)
  {
  }

  // ---- The canonical form of parsed texts ----

  function TagMap(pairs: seq<Pair>): map<string, string> {
    if pairs == [] then map[] else TagMap(pairs[..|pairs| - 1])[pairs[|pairs| - 1].tag := pairs[|pairs| - 1].value]
  }

  lemma {:induction false} TagMapMeans(pairs: seq<Pair>)
    requires DistinctTags(pairs)
    ensures forall t :: t in TagMap(pairs) <==> HasTag(pairs, t)
    ensures forall p :: p in pairs <==> p.tag in TagMap(pairs) && TagMap(pairs)[p.tag] == p.value
  {
    if pairs != [] {
      var n := |pairs| - 1;
      var rest := pairs[..n];
      assert pairs == rest + [pairs[n]];
      TagMapMeans(rest);
      HasTagAppend(rest, pairs[n]);
      assert !HasTag(rest, pairs[n].tag);
    }
  }

  lemma SameMaps(a: seq<Pair>, b: seq<Pair>)
    requires DistinctTags(a) && DistinctTags(b)
    ensures TagMap(a) - {"sg"} == TagMap(b) - {"sg"} <==>
            forall p: Pair | p.tag != "sg" :: p in a <==> p in b
  {
    hide TagMap, HasTag;
    TagMapMeans(a);
    TagMapMeans(b);
    var m, k := TagMap(a) - {"sg"}, TagMap(b) - {"sg"};
    if m == k {
      forall p: Pair | p.tag != "sg"
        ensures p in a <==> p in b
      {
        assert p.tag in m <==> p.tag in TagMap(a);
        assert p.tag in k <==> p.tag in TagMap(b);
      }
    }
    if forall p: Pair | p.tag != "sg" :: p in a <==> p in b {
      forall t | t in m
        ensures t in k && k[t] == m[t]
      {
        assert Pair(t, m[t]) in a;
      }
      forall t | t in k
        ensures t in m
      {
        assert Pair(t, k[t]) in b;
      }
      assert m == k;
    }
  }

  lemma WellFormedSigned(pairs: seq<Pair>)
    requires WellFormed(pairs)
    ensures ValidPairs(AllPairs(Build(pairs))) && SignedPairs(Build(pairs)) != []
    ensures SamePairs(AllPairs(Build(pairs)), pairs)
    ensures forall p :: p in SignedPairs(Build(pairs)) <==> p in pairs && p.tag != "sg"
  {
    hide Build, AllPairs, Supported, HasRequired, ValidPair;
    BuildKeepsPairs(pairs) by { assert pairs[0].tag == "v"; }
    ListingValid(pairs);
    DropTagKeeps(AllPairs(Build(pairs)), "sg");
    assert pairs[0] in SignedPairs(Build(pairs)) by { assert pairs[0] in pairs; }
  }

  lemma AllPairsDistinct(pairs: seq<Pair>)
    requires ValidPairs(pairs)
    ensures DistinctTags(AllPairs(Build(pairs)))
  {
    hide Build, KnownPairs, Required, Optional, ValidPair, Present, Get;
    var r := Build(pairs);
    OrderDistinct();
    KnownPairsMean(r, KNOWN_ORDER);
    UnknownOfMeans(pairs);
    KnownOrderIsKnown("v");
    BuildFields(pairs, "v");
    var known := KnownPairs(r, KNOWN_ORDER);
    forall i, j | 0 <= i < |known| && 0 <= j < |r.unknown|
      ensures known[i].tag != r.unknown[j].tag
    {
      assert known[i] in known && r.unknown[j] in r.unknown;
      KnownOrderIsKnown(known[i].tag);
    }
  }

  lemma ListingValid(pairs: seq<Pair>)
    requires ValidPairs(pairs) && HasTag(pairs, "v")
    ensures ValidPairs(AllPairs(Build(pairs)))
  {
    hide Build, AllPairs, ValidPair;
    ListingFromPairs(pairs);
    AllPairsDistinct(pairs);
    forall i | 0 <= i < |AllPairs(Build(pairs))|
      ensures ValidPair(AllPairs(Build(pairs))[i])
    {
      assert AllPairs(Build(pairs))[i] in pairs;
    }
  }

  /** Two accepted texts have the same canonical form if and only if they hold the same tags with the
      same values, the signature aside.  So the form depends neither on the order of the tags, nor on
      spaces, nor on a trailing semicolon, and it hides nothing it signs, empty optional tags included. */
  lemma CanonicalIsTheTagMap(raw: string, other: string)
    ensures Parse(raw).Ok? && Parse(other).Ok? ==>
              && ParseElements(Body(Split(raw, ';')), false).Ok? && ParseElements(Body(Split(other, ';')), false).Ok?
              && (Canonical(Parse(raw).value) == Canonical(Parse(other).value) <==>
                  TagMap(PairsOf(raw, false)) - {"sg"} == TagMap(PairsOf(other, false)) - {"sg"})
  {
    hide Canonical, Build, Split, ParseElements, Parse, TagMap, Supported, HasRequired, NoEmptyRequired, ValidPair,
         AllPairs, DropTag;
    if Parse(raw).Ok? && Parse(other).Ok? {
      ParseMeans(raw);
      ParseMeans(other);
      var a, b := PairsOf(raw, false), PairsOf(other, false);
      WellFormedSigned(a);
      WellFormedSigned(b);
      CanonicalSignsThePairs(Build(a), Build(b));
      SameMaps(a, b);
    }
  }
}
