/** What the record model's pieces do: elements and pairs, building a record from pairs and listing its
    pairs again. */
module RecordFacts {
  import opened Texts
  import opened Sorting
  import opened Records

  // ---- Pairs ----

  predicate DistinctTags(pairs: seq<Pair>) {
    forall i, j | 0 <= i < j < |pairs| :: pairs[i].tag != pairs[j].tag
  }

  predicate ValidPairs(pairs: seq<Pair>) {
    DistinctTags(pairs) && forall i | 0 <= i < |pairs| :: ValidPair(pairs[i])
  }

  predicate SamePairs(a: seq<Pair>, b: seq<Pair>) {
    (forall p | p in a :: p in b) && forall p | p in b :: p in a
  }

  function DropTag(pairs: seq<Pair>, tag: string): seq<Pair> {
    if pairs == [] then []
    else (if pairs[0].tag == tag then [] else [pairs[0]]) + DropTag(pairs[1..], tag)
  }

  lemma {:induction false} DropTagKeeps(pairs: seq<Pair>, tag: string)
    ensures forall p :: p in DropTag(pairs, tag) <==> p in pairs && p.tag != tag
    ensures ValidPairs(pairs) ==> ValidPairs(DropTag(pairs, tag))
  {
    hide ValidPair;
    if pairs != [] {
      var rest := pairs[1..];
      DropTagKeeps(rest, tag);
      assert pairs == [pairs[0]] + rest;
      if ValidPairs(pairs) {
        forall p | p in DropTag(rest, tag)
          ensures p.tag != pairs[0].tag
        {
          assert p in rest;
        }
      }
    }
  }

  // ---- One element ----

  function Element(p: Pair, space: bool): string {
    (if space then " " else "") + Render(p)
  }

  lemma NameHasNoEquals(name: string)
    requires ValidName(name)
    ensures '=' !in name && ';' !in name && ' ' !in name
  {
  }

  lemma RenderParts(p: Pair)
    requires '=' !in p.tag
    ensures Find(Render(p), '=') == |p.tag|
    ensures Render(p)[..|p.tag|] == p.tag && Render(p)[|p.tag| + 1..] == p.value
    ensures Key(Render(p), true) == p.tag
  {
    assert Render(p) == p.tag + ['='] + p.value;
    FindAfter(p.tag, '=', p.value);
  }

  lemma RenderInjective(p: Pair, q: Pair)
    requires '=' !in p.tag && '=' !in q.tag && Render(p) == Render(q)
    ensures p == q
  {
    RenderParts(p);
    RenderParts(q);
  }

  lemma ElementHasNoSemicolon(p: Pair, space: bool)
    requires ValidPair(p)
    ensures ';' !in Element(p, space) && Element(p, space) != []
  {
  }

  lemma ParseTextAccepts(p: Pair, before: seq<Pair>, unsigned: bool)
    requires ValidPair(p) && !HasTag(before, p.tag) && (unsigned ==> p.tag != "sg")
    ensures ParseText(Render(p), before, unsigned) == Ok(p)
  {
    hide HasTag, ValidName, ValidValue, Find;
    NameHasNoEquals(p.tag);
    RenderParts(p);
    assert Render(p)[|p.tag|] == '=';
  }

  lemma ParseElementAccepts(p: Pair, space: bool, i: nat, before: seq<Pair>, unsigned: bool)
    requires ValidPair(p) && !HasTag(before, p.tag) && (space ==> i > 0) && (unsigned ==> p.tag != "sg")
    ensures ParseElement(Element(p, space), i, before, unsigned) == Ok(p)
  {
    hide HasTag, ParseText;
    ParseTextAccepts(p, before, unsigned);
    var e := Element(p, space);
    if space {
      assert e[1..] == Render(p);
    } else {
      assert e == Render(p) && e[0] == p.tag[0];
    }
  }

  lemma ParseTextMeans(text: string, before: seq<Pair>, unsigned: bool)
    requires ParseText(text, before, unsigned).Ok?
    ensures var p := ParseText(text, before, unsigned).value;
            ValidPair(p) && !HasTag(before, p.tag) && (unsigned ==> p.tag != "sg") && text == Render(p)
  {
  }

  lemma ParseElementMeans(e: string, i: nat, before: seq<Pair>, unsigned: bool)
    requires ParseElement(e, i, before, unsigned).Ok?
    ensures var p := ParseElement(e, i, before, unsigned).value;
            && ValidPair(p) && !HasTag(before, p.tag) && (unsigned ==> p.tag != "sg")
            && e != [] && e == Element(p, i > 0 && e[0] == ' ')
  {
    hide HasTag, ValidName, ValidValue, ParseText;
    var text := if i > 0 && e[0] == ' ' then e[1..] else e;
    ParseTextMeans(text, before, unsigned);
    assert i > 0 && e[0] == ' ' ==> e == " " + text;
  }

  // ---- The list of elements ----

  function WireElements(pairs: seq<Pair>, spaces: seq<bool>): seq<string>
    requires |spaces| == |pairs|
  {
    seq(|pairs|, i requires 0 <= i < |pairs| => Element(pairs[i], spaces[i]))
  }

  function SpacesOf(elements: seq<string>): seq<bool> {
    seq(|elements|, i requires 0 <= i < |elements| => i > 0 && |elements[i]| > 0 && elements[i][0] == ' ')
  }

  lemma {:induction false} ElementsAccept(pairs: seq<Pair>, spaces: seq<bool>, unsigned: bool)
    requires ValidPairs(pairs) && |spaces| == |pairs| && (pairs != [] ==> !spaces[0])
    requires unsigned ==> !HasTag(pairs, "sg")
    ensures ParseElements(WireElements(pairs, spaces), unsigned) == Ok(pairs)
  {
    hide ParseElement, Element, ValidPair;
    if pairs != [] {
      var n := |pairs| - 1;
      var elements := WireElements(pairs, spaces);
      assert elements[..n] == WireElements(pairs[..n], spaces[..n]);
      assert unsigned ==> pairs[n].tag != "sg" && forall j | 0 <= j < n :: pairs[..n][j].tag != "sg";
      ElementsAccept(pairs[..n], spaces[..n], unsigned);
      ParseElementAccepts(pairs[n], spaces[n], n, pairs[..n], unsigned);
      assert pairs == pairs[..n] + [pairs[n]];
    }
  }

  lemma {:induction false} ElementsMean(elements: seq<string>, unsigned: bool)
    requires ParseElements(elements, unsigned).Ok?
    ensures var pairs := ParseElements(elements, unsigned).value;
            && |pairs| == |elements| && ValidPairs(pairs) && (unsigned ==> !HasTag(pairs, "sg"))
            && elements == WireElements(pairs, SpacesOf(elements))
  {
    hide ParseElement, Element, ValidPair;
    if elements != [] {
      var n := |elements| - 1;
      ElementsMean(elements[..n], unsigned);
      var before := ParseElements(elements[..n], unsigned).value;
      ParseElementMeans(elements[n], n, before, unsigned);
      var p := ParseElement(elements[n], n, before, unsigned).value;
      var pairs := before + [p];
      HasTagAppend(before, p);
      forall i | 0 <= i < |elements|
        ensures elements[i] == Element(pairs[i], SpacesOf(elements)[i])
      {
        if i < n {
          assert elements[i] == elements[..n][i] == WireElements(before, SpacesOf(elements[..n]))[i];
        }
      }
    }
  }

  // ---- Building a record ----

  function UnknownOf(pairs: seq<Pair>): seq<Pair> {
    if pairs == [] then []
    else UnknownOf(pairs[..|pairs| - 1]) + (if Known(pairs[|pairs| - 1].tag) then [] else [pairs[|pairs| - 1]])
  }

  lemma PutTagEffect(r: Record, p: Pair, other: string)
    requires Known(other) && (other == p.tag && p.value == [] && Optional(p.tag) ==> Get(r, other) == [])
    ensures Get(PutTag(r, p), other) == if other == p.tag then p.value else Get(r, other)
    ensures PutTag(r, p).unknown == r.unknown + if Known(p.tag) then [] else [p]
    ensures PutTag(r, p).parsedOptional == r.parsedOptional + if Known(p.tag) && !Required(p.tag) then {p.tag} else {}
  {
  }

  lemma BlankOptional(tag: string)
    requires Optional(tag)
    ensures Get(BLANK, tag) == [] && !Required(tag)
  {
  }

  /** The record built from pairs with distinct tags: each known tag has its value, a tag that is not
      there its default, the extension tags are kept in order, and the optional tags are remembered. */
  lemma {:induction false} BuildFields(pairs: seq<Pair>, tag: string)
    requires DistinctTags(pairs) && Known(tag)
    ensures !HasTag(pairs, tag) ==> Get(Build(pairs), tag) == Get(BLANK, tag)
    ensures forall i | 0 <= i < |pairs| && pairs[i].tag == tag :: Get(Build(pairs), tag) == pairs[i].value
    ensures Build(pairs).unknown == UnknownOf(pairs)
    ensures tag in Build(pairs).parsedOptional <==> Optional(tag) && HasTag(pairs, tag)
  {
    hide Get, PutTag, Required, Optional;
    if pairs != [] {
      var n := |pairs| - 1;
      var rest, last := pairs[..n], pairs[n];
      assert pairs == rest + [last];
      BuildFields(rest, tag);
      HasTagAppend(rest, last);
      if tag == last.tag {
        assert !HasTag(rest, tag);
        if Optional(tag) { BlankOptional(tag); }
      }
      PutTagEffect(Build(rest), last, tag);
    }
  }

  lemma {:induction false} BuildOptional(pairs: seq<Pair>)
    ensures forall t | t in Build(pairs).parsedOptional :: Optional(t)
  {
    hide Required, Optional;
    if pairs != [] {
      BuildOptional(pairs[..|pairs| - 1]);
    }
  }

  lemma {:induction false} UnknownOfMeans(pairs: seq<Pair>)
    ensures forall p :: p in UnknownOf(pairs) <==> p in pairs && !Known(p.tag)
    ensures ValidPairs(pairs) ==> ValidPairs(UnknownOf(pairs))
  {
    hide Required, Optional, ValidPair;
    if pairs != [] {
      var n := |pairs| - 1;
      UnknownOfMeans(pairs[..n]);
      assert pairs == pairs[..n] + [pairs[n]];
      if ValidPairs(pairs) {
        assert ValidPairs(pairs[..n]);
        forall p | p in UnknownOf(pairs[..n])
          ensures p.tag != pairs[n].tag
        {
          assert p in pairs[..n];
        }
      }
    }
  }

  // ---- Listing a record's pairs ----

  lemma KnownOrderIsKnown(tag: string)
    ensures Known(tag) <==> tag in KNOWN_ORDER
  {
  }

  lemma {:induction false} KnownPairsMean(r: Record, order: seq<string>)
    requires forall i, j | 0 <= i < j < |order| :: order[i] != order[j]
    ensures forall p :: p in KnownPairs(r, order) <==> p.tag in order && Present(r, p.tag) && p.value == Get(r, p.tag)
    ensures DistinctTags(KnownPairs(r, order))
  {
    hide Get, Present;
    if order != [] {
      var rest := order[1..];
      KnownPairsMean(r, rest);
      assert order == [order[0]] + rest;
      forall p | p in KnownPairs(r, rest)
        ensures p.tag != order[0]
      {
        assert p.tag in rest;
      }
    }
  }

  lemma OrderDistinct()
    ensures forall i, j | 0 <= i < j < |KNOWN_ORDER| :: KNOWN_ORDER[i] != KNOWN_ORDER[j]
    ensures forall i, j | 0 <= i < j < |UNSIGNED_ORDER| :: UNSIGNED_ORDER[i] != UNSIGNED_ORDER[j]
    ensures forall t :: t in UNSIGNED_ORDER <==> t in KNOWN_ORDER && t != "sg"
  {
  }

  /** The pairs a record lists: its present known tags with their values, and its extension tags. */
  lemma AllPairsMean(r: Record)
    ensures forall p :: p in AllPairs(r) <==>
              (Known(p.tag) && Present(r, p.tag) && p.value == Get(r, p.tag)) || p in r.unknown
  {
    hide Get, Present, KnownPairs, Required, Optional;
    OrderDistinct();
    KnownPairsMean(r, KNOWN_ORDER);
    forall t: string
      ensures Known(t) <==> t in KNOWN_ORDER
    {
      KnownOrderIsKnown(t);
    }
  }

  predicate NoEmptyRequired(pairs: seq<Pair>) {
    forall i | 0 <= i < |pairs| && Required(pairs[i].tag) :: pairs[i].value != []
  }

  lemma BlankRequired(tag: string)
    requires Known(tag) && tag != "v"
    ensures Get(BLANK, tag) == []
  {
  }

  lemma OptionalNotRequired(tag: string)
    ensures !(Optional(tag) && Required(tag))
  {
  }

  /** The record lists no pair it was not built from, provided the version is among them. */
  lemma ListingFromPairs(pairs: seq<Pair>)
    requires DistinctTags(pairs) && HasTag(pairs, "v")
    ensures forall p | p in AllPairs(Build(pairs)) :: p in pairs
    ensures Build(pairs).unknown == UnknownOf(pairs)
  {
    hide Get, Build, AllPairs, Required, Optional;
    var r := Build(pairs);
    AllPairsMean(r);
    UnknownOfMeans(pairs);
    KnownOrderIsKnown("v");
    BuildFields(pairs, "v");
    forall p | p in AllPairs(r)
      ensures p in pairs
    {
      if Known(p.tag) && p !in r.unknown {
        BuildFields(pairs, p.tag);
        if !HasTag(pairs, p.tag) {
          BlankRequired(p.tag);
        }
        var i :| 0 <= i < |pairs| && pairs[i].tag == p.tag;
      }
    }
  }

  /** Building loses nothing: the record lists exactly the pairs it was built from, provided the version
      is among them and no required tag is empty. */
  lemma BuildKeepsPairs(pairs: seq<Pair>)
    requires DistinctTags(pairs) && HasTag(pairs, "v") && NoEmptyRequired(pairs)
    ensures SamePairs(AllPairs(Build(pairs)), pairs)
  {
    hide Get, Build, AllPairs, Required, Optional;
    var r := Build(pairs);
    ListingFromPairs(pairs);
    AllPairsMean(r);
    UnknownOfMeans(pairs);
    forall p | p in pairs
      ensures p in AllPairs(r)
    {
      var i :| 0 <= i < |pairs| && pairs[i] == p;
      if Known(p.tag) { BuildFields(pairs, p.tag); OptionalNotRequired(p.tag); }
    }
  }
}
