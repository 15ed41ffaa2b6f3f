/** The exact texts of the identity record: the order and the bytes of the signed form and of the published one,
    the characters an accepted text is made of, and the tags it must have. */
module RecordBytes {
  import opened Texts
  import opened Sorting
  import opened Records
  import opened RecordFacts
  import opened RecordTheorems
  import opened RecordRoundTrips

  // ---- The signed bytes ----

  /** The canonical form lists exactly the signed pairs, each once as tag=value, joined by semicolons, in the
      order of their names' characters. */
  lemma CanonicalIsInOrder(r: Record) returns (pairs: seq<Pair>)
    requires ValidPairs(AllPairs(r)) && SignedPairs(r) != []
    ensures Canonical(r) == Join(RenderAll(pairs), ';') && Split(Canonical(r), ';') == RenderAll(pairs)
    ensures |pairs| == |SignedPairs(r)|
    ensures forall p :: p in pairs <==> p in AllPairs(r) && p.tag != "sg"
    ensures forall i, j | 0 <= i < j < |pairs| :: Before(pairs[i].tag, pairs[j].tag)
  {
    hide Sort, Join, AllPairs, Canonical, ValidName, ValidValue, Key, Before, Split, Render;
    NamesOf(AllPairs(r));
    CanonicalOfSigned(r);
    DropTagKeeps(AllPairs(r), "sg");
    var signed := SignedPairs(r);
    pairs := SortedPairs(signed);
    RenderedKeys(signed);
    SortsInOrder(RenderAll(signed), true);
    forall i | 0 <= i < |pairs|
      ensures Key(RenderAll(pairs)[i], true) == pairs[i].tag && ';' !in RenderAll(pairs)[i]
    {
      NameOfPair(pairs[i]);
      KeyOfRendered(pairs[i]);
    }
    SplitOfJoin(RenderAll(pairs), ';');
  }

  lemma KeyOfRendered(p: Pair)
    requires '=' !in p.tag
    ensures Key(Render(p), true) == p.tag
  {
    RenderParts(p);
  }

  const SIGNED_ORDER := ["cu", "ek", "fl", "gi", "ka", "ku", "lr", "su", "v"]

  /** Without extension tags the signed form is the known tags that are present, in the order cu, ek, fl, gi, ka,
      ku, lr, su, v. */
  lemma CanonicalOfKnownTags(r: Record)
    requires r.unknown == []
    ensures Canonical(r) == Join(RenderAll(KnownPairs(r, SIGNED_ORDER)), ';')
  {
    hide KnownPairs, Get, Present, Render, Sort, Join, RenderAll;
    assert r.(unknown := []) == r;
    KnownTagsFormIsCanonical(r);
    var known, ordered := KnownPairs(r, UNSIGNED_ORDER), KnownPairs(r, SIGNED_ORDER);
    OrdersAgree(r);
    KnownNames(r, UNSIGNED_ORDER);
    KnownNames(r, SIGNED_ORDER);
    OrderedKeys(r);
    RenderedElements(known, ordered);
    RenderedKeys(known);
    KnownSortsAgree(known);
    SortIncreasing(RenderAll(known), true);
    IncreasingUnique(Sort(RenderAll(known), true), RenderAll(ordered), true);
  }

  lemma KnownNames(r: Record, order: seq<string>)
    requires order == UNSIGNED_ORDER || order == SIGNED_ORDER
    ensures DistinctTags(KnownPairs(r, order))
    ensures forall p | p in KnownPairs(r, order) :: Known(p.tag) && '=' !in p.tag
  {
    hide Get, Present, KnownPairs;
    assert forall i, j | 0 <= i < j < |order| :: order[i] != order[j];
    KnownPairsMean(r, order);
    forall p | p in KnownPairs(r, order)
      ensures Known(p.tag) && '=' !in p.tag
    {
    }
  }

  lemma OrdersAgree(r: Record)
    ensures SamePairs(KnownPairs(r, UNSIGNED_ORDER), KnownPairs(r, SIGNED_ORDER))
  {
    hide Get, Present, KnownPairs;
    assert forall i, j | 0 <= i < j < |UNSIGNED_ORDER| :: UNSIGNED_ORDER[i] != UNSIGNED_ORDER[j];
    assert forall i, j | 0 <= i < j < |SIGNED_ORDER| :: SIGNED_ORDER[i] != SIGNED_ORDER[j];
    KnownPairsMean(r, UNSIGNED_ORDER);
    KnownPairsMean(r, SIGNED_ORDER);
    assert forall t :: t in UNSIGNED_ORDER <==> t in SIGNED_ORDER;
  }

  lemma OrderedKeys(r: Record)
    ensures Increasing(RenderAll(KnownPairs(r, SIGNED_ORDER)), true)
  {
    hide Get, Present, KnownPairs, Less, Key, Render;
    var pairs := KnownPairs(r, SIGNED_ORDER);
    SignedOrderIncreases();
    KnownInOrder(r, SIGNED_ORDER, pairs);
    KnownNames(r, SIGNED_ORDER);
    forall i | 0 <= i < |pairs|
      ensures Key(RenderAll(pairs)[i], true) == pairs[i].tag
    {
      assert pairs[i] in pairs;
      KeyOfRendered(pairs[i]);
    }
  }

  lemma SignedOrderIncreases()
    ensures forall i, j | 0 <= i < j < |SIGNED_ORDER| :: Less(SIGNED_ORDER[i], SIGNED_ORDER[j])
  {
  }

  lemma {:induction false} KnownInOrder(r: Record, order: seq<string>, pairs: seq<Pair>)
    requires forall i, j | 0 <= i < j < |order| :: Less(order[i], order[j])
    requires pairs == KnownPairs(r, order)
    ensures forall i, j | 0 <= i < j < |pairs| :: Less(pairs[i].tag, pairs[j].tag)
    ensures forall p | p in pairs :: p.tag in order
  {
    hide Get, Present, Less;
    if order != [] {
      var rest := KnownPairs(r, order[1..]);
      assert forall i | 0 <= i < |order[1..]| :: order[1..][i] == order[i + 1];
      KnownInOrder(r, order[1..], rest);
      forall p | p in rest
        ensures Less(order[0], p.tag) && p.tag in order
      {
        var j :| 0 <= j < |order[1..]| && order[1..][j] == p.tag;
        assert order[j + 1] == p.tag;
      }
      if Present(r, order[0]) {
        assert pairs == [Pair(order[0], Get(r, order[0]))] + rest;
        forall i, j | 0 <= i < j < |pairs|
          ensures Less(pairs[i].tag, pairs[j].tag)
        {
          assert pairs[j] == rest[j - 1] && rest[j - 1] in rest;
          assert i > 0 ==> pairs[i] == rest[i - 1];
        }
      } else {
        assert pairs == rest;
      }
    }
  }

  // ---- The bytes of a record with the required tags alone ----

  predicate RequiredOnly(r: Record) {
    && r.unknown == [] && r.parsedOptional == {}
    && Get(r, "fl") == "" && Get(r, "ka") == "" && Get(r, "cu") == ""
    && Get(r, "v") != "" && Get(r, "gi") != "" && Get(r, "ek") != "" && Get(r, "ku") != "" && Get(r, "lr") != ""
    && Get(r, "su") != "" && Get(r, "sg") != ""
  }

  /** What is signed: ek, gi, ku, lr, su, v. */
  lemma RequiredTagsSigned(r: Record)
    requires RequiredOnly(r)
    ensures Canonical(r) == "ek=" + Get(r, "ek") + ";gi=" + Get(r, "gi") + ";ku=" + Get(r, "ku")
                            + ";lr=" + Get(r, "lr") + ";su=" + Get(r, "su") + ";v=" + Get(r, "v")
  {
    hide Get, KnownPairs, Join, Canonical, Render, RenderAll;
    CanonicalOfKnownTags(r);
    assert SIGNED_ORDER == ["cu"] + (["ek"] + (["fl"] + (["gi"] + (["ka"] + (["ku"] + (["lr"] + (["su"] + ["v"])))))));
    KnownLast(r, "v");
    KnownCons(r, "su", ["v"]);
    KnownCons(r, "lr", ["su"] + ["v"]);
    KnownCons(r, "ku", ["lr"] + (["su"] + ["v"]));
    KnownCons(r, "ka", ["ku"] + (["lr"] + (["su"] + ["v"])));
    KnownCons(r, "gi", ["ka"] + (["ku"] + (["lr"] + (["su"] + ["v"]))));
    KnownCons(r, "fl", ["gi"] + (["ka"] + (["ku"] + (["lr"] + (["su"] + ["v"])))));
    KnownCons(r, "ek", ["fl"] + (["gi"] + (["ka"] + (["ku"] + (["lr"] + (["su"] + ["v"]))))));
    KnownCons(r, "cu", ["ek"] + (["fl"] + (["gi"] + (["ka"] + (["ku"] + (["lr"] + (["su"] + ["v"])))))));
    SixTexts(r);
  }

  /** What is published: v first, then gi, ek, ku, lr, su, sg, the optional tags fl, ka, cu that are present, and
      the extension tags as they came. */
  lemma SerializedInOrder(r: Record)
    requires RecordOk(r)
    ensures Serialize(r) ==
            Join(RenderAll(KnownPairs(r, ["v", "gi", "ek", "ku", "lr", "su", "sg", "fl", "ka", "cu"]) + r.unknown), ';')
  {
    hide RecordOk, KnownPairs, Join, Serialize;
    SerializeIsAWire(r);
    PlainElements(AllPairs(r));
    assert RenderAll(AllPairs(r)) + [] == RenderAll(AllPairs(r));
  }

  lemma SixTexts(r: Record)
    ensures Text(r, "ek") + (";" + (Text(r, "gi") + (";" + (Text(r, "ku") + (";" + (Text(r, "lr")
              + (";" + (Text(r, "su") + (";" + Text(r, "v"))))))))))
            == "ek=" + Get(r, "ek") + ";gi=" + Get(r, "gi") + ";ku=" + Get(r, "ku")
               + ";lr=" + Get(r, "lr") + ";su=" + Get(r, "su") + ";v=" + Get(r, "v")
  {
    hide Get;
  }

  function Text(r: Record, tag: string): string {
    tag + "=" + Get(r, tag)
  }

  /** The text of the tags of this list that are present. */
  lemma KnownCons(r: Record, tag: string, rest: seq<string>)
    requires KnownPairs(r, rest) != []
    ensures var all := KnownPairs(r, [tag] + rest);
            && all != []
            && Join(RenderAll(all), ';') ==
               if Present(r, tag) then Text(r, tag) + (";" + Join(RenderAll(KnownPairs(r, rest)), ';'))
               else Join(RenderAll(KnownPairs(r, rest)), ';')
  {
    hide Get, Present;
    assert ([tag] + rest)[1..] == rest;
    var pairs := KnownPairs(r, rest);
    var p := Pair(tag, Get(r, tag));
    assert RenderAll([p] + pairs) == [Render(p)] + RenderAll(pairs);
    assert ([Render(p)] + RenderAll(pairs))[1..] == RenderAll(pairs);
    assert [] + pairs == pairs;
  }

  lemma KnownLast(r: Record, tag: string)
    requires Present(r, tag)
    ensures KnownPairs(r, [tag]) != [] && Join(RenderAll(KnownPairs(r, [tag])), ';') == Text(r, tag)
  {
    hide Get, Present;
    assert [tag][1..] == [];
    assert RenderAll([Pair(tag, Get(r, tag))]) == [Render(Pair(tag, Get(r, tag)))];
  }

  // ---- Characters and tags ----

  /** A letter followed by letters, digits and underscores. */
  predicate NameOk(s: string) {
    && s != ""
    && forall i | 0 <= i < |s| ::
         var n := s[i] as int;
         65 <= n <= 90 || 97 <= n <= 122 || (i > 0 && (48 <= n <= 57 || n == 95))
  }

  /** Printable ASCII characters other than space and semicolon. */
  predicate ValueOk(s: string) {
    forall i | 0 <= i < |s| :: 33 <= s[i] as int <= 126 && s[i] as int != 59
  }

  /** The grammar of names and values, by code points. */
  lemma NamesAndValues(s: string)
    ensures ValidName(s) <==> NameOk(s)
    ensures ValidValue(s) <==> ValueOk(s)
  {
  }

  /** Printable ASCII, with spaces only right after semicolons, or at the beginning if that is allowed. */
  predicate Printable(s: string, space: bool) {
    forall i | 0 <= i < |s| :: 33 <= s[i] as int <= 126 || (s[i] == ' ' && if i > 0 then s[i - 1] == ';' else space)
  }

  /** An accepted text is printable ASCII, with spaces only right after semicolons. */
  lemma AcceptedCharacters(raw: string)
    requires Parse(raw).Ok?
    ensures Printable(raw, false)
  {
    hide Parse, WellFormed, Wire, Split, ParseElements, ValidPairs, Build, Printable;
    ParseMeans(raw);
    AcceptedElements(raw);
    var pairs := PairsOf(raw, false);
    var spaces, trailing :| Layout(pairs, spaces) && raw == Wire(pairs, spaces, trailing);
    WireCharacters(pairs, spaces, trailing);
  }

  lemma WireCharacters(pairs: seq<Pair>, spaces: seq<bool>, trailing: bool)
    requires ValidPairs(pairs) && Layout(pairs, spaces)
    ensures Printable(Wire(pairs, spaces, trailing), false)
  {
    hide Join, ValidPair, Plain, Element, Printable;
    var elements := WireElements(pairs, spaces);
    forall i | 0 <= i < |elements|
      ensures Plain(elements[i], i > 0)
    {
      ElementIsPlain(pairs[i], spaces[i], i > 0);
    }
    NothingIsPlain();
    PlainJoin(elements + (if trailing then [""] else []), false);
  }

  lemma AcceptedElements(raw: string)
    requires Parse(raw).Ok? && ParseElements(Body(Split(raw, ';')), false).Ok?
    ensures ValidPairs(PairsOf(raw, false))
  {
    hide Split, ParseElements, ValidPair;
    ElementsLayout(raw, false);
  }

  /** Printable, but for one space at the beginning where that is allowed. */
  predicate Plain(s: string, space: bool) {
    forall i | 0 <= i < |s| :: 33 <= s[i] as int <= 126 || (space && i == 0 && s[i] == ' ')
  }

  lemma ElementIsPlain(p: Pair, space: bool, allowed: bool)
    requires ValidPair(p) && (space ==> allowed)
    ensures Plain(Element(p, space), allowed)
  {
  }

  lemma NothingIsPlain()
    ensures Plain("", true) && Plain("", false)
  {
  }

  lemma {:induction false} PlainJoin(parts: seq<string>, space: bool)
    requires forall i | 0 <= i < |parts| :: Plain(parts[i], space || i > 0)
    ensures Printable(Join(parts, ';'), space)
  {
    if |parts| > 1 {
      PlainJoin(parts[1..], true);
      var head, tail := parts[0], Join(parts[1..], ';');
      var s := Join(parts, ';');
      forall i | 0 <= i < |s|
        ensures 33 <= s[i] as int <= 126 || (s[i] == ' ' && if i > 0 then s[i - 1] == ';' else space)
      {
        if i > |head| {
          assert s[i] == tail[i - |head| - 1];
          assert i > |head| + 1 ==> s[i - 1] == tail[i - |head| - 2];
        }
      }
    }
  }

  /** The tags a text must have, none of them empty, and the versions there are. */
  lemma AcceptedTags(raw: string)
    requires Parse(raw).Ok?
    ensures var r := Parse(raw).value;
            && (forall t | t in ["v", "gi", "ek", "ku", "lr", "su", "sg"] :: Get(r, t) != "")
            && (Get(r, "v") == "dnsid-draft-01" || Get(r, "v") == "DNSid1")
  {
    hide Parse, Get, ValidPairs;
    ParsedIsOk(raw);
    var r := Parse(raw).value;
    assert RequiredFilled(r) && Supported(Get(r, "v"));
    forall t | t in ["v", "gi", "ek", "ku", "lr", "su", "sg"]
      ensures Get(r, t) != ""
    {
      KnownOrderIsKnown(t);
      assert t in KNOWN_ORDER && Required(t);
      assert Get(r, t) != [];
    }
  }

  /** And they are enough: distinct valid pairs that begin with a version and hold those tags, not empty, are
      accepted in every layout, whatever other tags they hold. */
  lemma TagsThatSuffice(pairs: seq<Pair>, spaces: seq<bool>, trailing: bool)
    requires ValidPairs(pairs) && Layout(pairs, spaces) && pairs != []
    requires pairs[0] == Pair("v", "dnsid-draft-01") || pairs[0] == Pair("v", "DNSid1")
    requires forall t | t in ["gi", "ek", "ku", "lr", "su", "sg"] ::
               exists p :: p in pairs && p.tag == t && p.value != ""
    ensures Parse(Wire(pairs, spaces, trailing)) == Ok(Build(pairs))
  {
    hide Parse, Wire, Build, ValidPair;
    forall t | t in KNOWN_ORDER && Required(t)
      ensures HasTag(pairs, t)
    {
      if t != "v" {
        assert t in ["gi", "ek", "ku", "lr", "su", "sg"];
        var p :| p in pairs && p.tag == t && p.value != "";
        var i :| 0 <= i < |pairs| && pairs[i] == p;
      }
    }
    forall i | 0 <= i < |pairs| && Required(pairs[i].tag)
      ensures pairs[i].value != []
    {
      var t := pairs[i].tag;
      if t == "v" {
        assert i == 0;
      } else {
        assert t in ["gi", "ek", "ku", "lr", "su", "sg"];
        var p :| p in pairs && p.tag == t && p.value != "";
        var j :| 0 <= j < |pairs| && pairs[j] == p;
        assert i == j;
      }
    }
    ParseAccepts(pairs, spaces, trailing);
  }
}
