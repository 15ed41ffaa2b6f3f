/** Round trips of the identity record: serialized and parsed, canonical and parsed unsigned, and the
    known-tags form against the canonical form. */
module RecordRoundTrips {
  import opened Texts
  import opened Sorting
  import opened Records
  import opened RecordFacts
  import opened RecordTheorems

  /** A record that can go on the wire: a supported version, every required tag filled, values and
      extension tags within the grammar. */
  predicate RecordOk(r: Record) {
    && r.fields.Keys == BLANK.fields.Keys
    && Supported(Get(r, "v"))
    && RequiredFilled(r)
    && (forall t | t in KNOWN_ORDER :: ValidValue(Get(r, t)))
    && ValidPairs(r.unknown)
    && (forall p | p in r.unknown :: !Known(p.tag))
    && forall t | t in r.parsedOptional :: Optional(t)
  }

  /** The optional tags the record lists. */
  function ListedOptional(r: Record): set<string> {
    set t | t in KNOWN_ORDER && Optional(t) && Present(r, t)
  }

  lemma KnownNamesValid(tag: string)
    requires Known(tag)
    ensures ValidName(tag)
  {
  }

  lemma ListedPairs(r: Record)
    requires RecordOk(r)
    ensures ValidPairs(AllPairs(r)) && NoEmptyRequired(AllPairs(r)) && HasRequired(AllPairs(r), false)
  {
    hide Get, KnownPairs, AllPairs, Required, Optional, ValidName, ValidValue, Supported;
    AllPairsMean(r);
    ListedDistinct(r);
    forall p | p in AllPairs(r)
      ensures ValidPair(p) && (Required(p.tag) ==> p.value != [])
    {
      if Known(p.tag) && p !in r.unknown {
        KnownNamesValid(p.tag);
        KnownOrderIsKnown(p.tag);
      }
    }
    forall t | t in KNOWN_ORDER && Required(t)
      ensures HasTag(AllPairs(r), t)
    {
      assert Pair(t, Get(r, t)) in AllPairs(r);
    }
  }

  lemma ListedDistinct(r: Record)
    requires RecordOk(r)
    ensures DistinctTags(AllPairs(r))
  {
    hide Get, KnownPairs, Required, Optional, ValidPair, Supported, Present;
    OrderDistinct();
    KnownPairsMean(r, KNOWN_ORDER);
    var known := KnownPairs(r, KNOWN_ORDER);
    forall i, j | 0 <= i < |known| && 0 <= j < |r.unknown|
      ensures known[i].tag != r.unknown[j].tag
    {
      assert known[i] in known && r.unknown[j] in r.unknown;
      KnownOrderIsKnown(known[i].tag);
    }
  }

  /** The version comes first in the listing. */
  lemma VersionFirst(r: Record)
    requires RecordOk(r)
    ensures AllPairs(r) != [] && AllPairs(r)[0] == Pair("v", Get(r, "v"))
    ensures |AllPairs(r)| > 1
  {
    hide ValidValue, ValidPairs, Optional;
    assert Get(r, "v") != [];
    assert AllPairs(r) == [Pair("v", Get(r, "v"))] + KnownPairs(r, KNOWN_ORDER[1..]) + r.unknown;
    assert KNOWN_ORDER[1..][0] == "gi" && "gi" in KNOWN_ORDER;
    assert Get(r, "gi") != [];
  }

  lemma {:induction false} DropAbsent(pairs: seq<Pair>, tag: string)
    requires forall p | p in pairs :: p.tag != tag
    ensures DropTag(pairs, tag) == pairs
  {
    if pairs != [] {
      assert pairs == [pairs[0]] + pairs[1..];
      DropAbsent(pairs[1..], tag);
    }
  }

  function NoSpaces(n: nat): seq<bool> {
    seq(n, _ => false)
  }

  lemma PlainElements(pairs: seq<Pair>)
    ensures WireElements(pairs, NoSpaces(|pairs|)) == RenderAll(pairs)
  {
    hide Render;
    forall i | 0 <= i < |pairs|
      ensures WireElements(pairs, NoSpaces(|pairs|))[i] == RenderAll(pairs)[i]
    {
      assert "" + Render(pairs[i]) == Render(pairs[i]);
    }
  }

  /** `serialize` writes the listing as it stands, without spaces or a semicolon at the end. */
  lemma SerializeIsAWire(r: Record)
    requires RecordOk(r)
    ensures Serialize(r) == Wire(AllPairs(r), NoSpaces(|AllPairs(r)|), false)
  {
    hide AllPairs, RecordOk, Without, ValidPair, Get, Render, RenderAll, Join, WireElements;
    ListedPairs(r);
    VersionFirst(r);
    var pairs := AllPairs(r);
    NamesOf(pairs);
    WithoutRendered(pairs, "v");
    assert "v" + "=" == "v=";
    DropHead(pairs);
    PlainElements(pairs);
    assert RenderAll(pairs) + [] == RenderAll(pairs);
    JoinHead(pairs);
    assert Render(pairs[0]) == "v=" + Get(r, "v") by { RenderVersion(Get(r, "v")); }
  }

  lemma RenderVersion(version: string)
    ensures Render(Pair("v", version)) == "v=" + version
  {
  }

  lemma DropHead(pairs: seq<Pair>)
    requires DistinctTags(pairs) && pairs != []
    ensures DropTag(pairs, pairs[0].tag) == pairs[1..]
  {
    forall p | p in pairs[1..]
      ensures p.tag != pairs[0].tag
    {
      var i :| 0 <= i < |pairs[1..]| && pairs[1..][i] == p;
      assert pairs[i + 1] == p;
    }
    DropAbsent(pairs[1..], pairs[0].tag);
  }

  lemma JoinHead(pairs: seq<Pair>)
    requires |pairs| > 1
    ensures Join(RenderAll(pairs), ';') == Render(pairs[0]) + ";" + Join(RenderAll(pairs[1..]), ';')
  {
    hide Render;
    assert RenderAll(pairs)[1..] == RenderAll(pairs[1..]);
  }

  lemma SameRecord(r: Record, q: Record)
    requires r.fields.Keys == q.fields.Keys && r.unknown == q.unknown && r.parsedOptional == q.parsedOptional
    requires forall t | t in r.fields :: Get(r, t) == Get(q, t)
    ensures r == q
  {
  }

  lemma {:induction false} BuildKeys(pairs: seq<Pair>)
    ensures Build(pairs).fields.Keys == BLANK.fields.Keys
  {
    hide Required, Optional;
    if pairs != [] {
      BuildKeys(pairs[..|pairs| - 1]);
      if Known(pairs[|pairs| - 1].tag) {
        KnownOrderIsKnown(pairs[|pairs| - 1].tag);
        BlankKeys();
      }
    }
  }

  lemma BlankKeys()
    ensures forall t :: t in BLANK.fields <==> t in KNOWN_ORDER
  {
  }

  lemma {:induction false} UnknownOfKnown(known: seq<Pair>, unknown: seq<Pair>)
    requires forall p | p in known :: Known(p.tag)
    requires forall p | p in unknown :: !Known(p.tag)
    ensures UnknownOf(known + unknown) == unknown
  {
    hide Known;
    var all := known + unknown;
    if unknown != [] {
      var n := |unknown| - 1;
      assert all[..|all| - 1] == known + unknown[..n];
      assert unknown == unknown[..n] + [unknown[n]];
      UnknownOfKnown(known, unknown[..n]);
    } else if known != [] {
      var n := |known| - 1;
      assert all[..|all| - 1] == known[..n] + unknown;
      assert known[n] in known;
      UnknownOfKnown(known[..n], unknown);
    }
  }

  lemma KnownPairsKnown(r: Record)
    ensures forall p | p in KnownPairs(r, KNOWN_ORDER) :: Known(p.tag)
  {
    hide Known, KnownPairs, Get, Present;
    OrderDistinct();
    KnownPairsMean(r, KNOWN_ORDER);
    forall p | p in KnownPairs(r, KNOWN_ORDER)
      ensures Known(p.tag)
    {
      KnownOrderIsKnown(p.tag);
    }
  }

  lemma BlankUnlisted(r: Record, tag: string)
    requires RecordOk(r) && Known(tag) && !HasTag(AllPairs(r), tag)
    ensures Get(BLANK, tag) == Get(r, tag)
  {
    hide AllPairs, KnownPairs, RecordOk, Known;
    VersionFirst(r);
    AllPairsMean(r);
    if tag != "v" {
      BlankRequired(tag);
      assert Present(r, tag) ==> Pair(tag, Get(r, tag)) in AllPairs(r);
    }
  }

  /** Listing a record and building it again gives it back; only the note of which optional tags were
      in the text is refreshed. */
  lemma BuildOfListing(r: Record)
    requires RecordOk(r)
    ensures Build(AllPairs(r)) == r.(parsedOptional := ListedOptional(r))
  {
    hide Get, KnownPairs, Build, Known, ValidPair, Supported, RequiredFilled, Optional;
    var pairs := AllPairs(r);
    var q := Build(pairs);
    ListedPairs(r);
    BuildKeys(pairs);
    BlankKeys();
    AllPairsMean(r);
    KnownPairsKnown(r);
    UnknownOfKnown(KnownPairs(r, KNOWN_ORDER), r.unknown);
    assert q.unknown == r.unknown by { KnownOrderIsKnown("v"); BuildFields(pairs, "v"); }
    forall t | t in KNOWN_ORDER
      ensures Get(q, t) == Get(r, t) && (t in q.parsedOptional <==> Optional(t) && Present(r, t))
    {
      KnownOrderIsKnown(t);
      BuildFields(pairs, t);
      ListedTag(r, t);
    }
    BuildOptional(pairs);
    forall t | t in q.parsedOptional
      ensures t in ListedOptional(r)
    {
      OptionalInOrder(t);
    }
    assert q.parsedOptional == ListedOptional(r);
    var w := r.(parsedOptional := ListedOptional(r));
    assert forall t :: Get(w, t) == Get(r, t) by { SameFields(r); }
    SameRecord(q, w);
  }

  lemma SameFields(r: Record)
    ensures forall t :: Get(r.(parsedOptional := ListedOptional(r)), t) == Get(r, t)
  {
  }

  lemma OptionalInOrder(tag: string)
    requires Optional(tag)
    ensures tag in KNOWN_ORDER && Known(tag)
  {
  }

  /** A tag is listed when present, with its value; otherwise it has its default. */
  lemma ListedTag(r: Record, tag: string)
    requires RecordOk(r) && Known(tag)
    ensures HasTag(AllPairs(r), tag) <==> Present(r, tag)
    ensures forall i | 0 <= i < |AllPairs(r)| && AllPairs(r)[i].tag == tag :: AllPairs(r)[i].value == Get(r, tag)
    ensures !HasTag(AllPairs(r), tag) ==> Get(BLANK, tag) == Get(r, tag)
  {
    hide Get, AllPairs, RecordOk, Known;
    AllPairsMean(r);
    assert forall p | p in r.unknown :: !Known(p.tag) by { UnknownIsUnknown(r); }
    if !HasTag(AllPairs(r), tag) {
      BlankUnlisted(r, tag);
    }
    if Present(r, tag) {
      assert Pair(tag, Get(r, tag)) in AllPairs(r);
    }
    forall i | 0 <= i < |AllPairs(r)| && AllPairs(r)[i].tag == tag
      ensures Present(r, tag) && AllPairs(r)[i].value == Get(r, tag)
    {
      assert AllPairs(r)[i] in AllPairs(r);
    }
  }

  lemma UnknownIsUnknown(r: Record)
    requires RecordOk(r)
    ensures forall p | p in r.unknown :: !Known(p.tag)
  {
  }

  /** A record that is serialized and parsed comes back, every field and extension tag; the parsed copy
      notes as parsed the optional tags that were written. */
  lemma SerializedParsesBack(r: Record)
    requires RecordOk(r)
    ensures Parse(Serialize(r)) == Ok(r.(parsedOptional := ListedOptional(r)))
  {
    hide Parse, Serialize, AllPairs, Build, RecordOk, NoEmptyRequired, HasRequired, ListedOptional, Wire, Supported,
         ValidPair, Get;
    ListedPairs(r);
    VersionFirst(r);
    SerializeIsAWire(r);
    assert Supported(Get(r, "v")) by { VersionSupported(r); }
    ParseAccepts(AllPairs(r), NoSpaces(|AllPairs(r)|), false);
    BuildOfListing(r);
  }

  lemma VersionSupported(r: Record)
    requires RecordOk(r)
    ensures Supported(Get(r, "v"))
  {
  }

  lemma ParsedFields(pairs: seq<Pair>)
    requires ValidPairs(pairs) && HasTag(pairs, "v")
    ensures forall t | t in KNOWN_ORDER :: ValidValue(Get(Build(pairs), t))
    ensures ValidPairs(Build(pairs).unknown) && forall p | p in Build(pairs).unknown :: !Known(p.tag)
  {
    hide Get, Build, Known, ValidName, ValidValue;
    UnknownOfMeans(pairs);
    ListingFromPairs(pairs);
    forall t | t in KNOWN_ORDER
      ensures ValidValue(Get(Build(pairs), t))
    {
      KnownOrderIsKnown(t);
      BuildFields(pairs, t);
      if !HasTag(pairs, t) {
        BlankRequired(t);
        EmptyValueValid();
      }
    }
  }

  lemma EmptyValueValid()
    ensures ValidValue([])
  {
  }

  /** Every parsed record can be written again, and lists exactly the optional tags it noted. */
  lemma ParsedIsOk(raw: string)
    ensures Parse(raw).Ok? ==>
              RecordOk(Parse(raw).value) && ListedOptional(Parse(raw).value) == Parse(raw).value.parsedOptional
  {
    hide Get, Build, Known, Optional, Required, Split, ParseElements, Supported, ValidPair, ValidValue, HasRequired,
         CheckVersion;
    if Parse(raw).Ok? {
      ParseMeans(raw);
      var pairs := PairsOf(raw, false);
      var r := Build(pairs);
      assert HasTag(pairs, "v") by { assert pairs[0].tag == "v"; }
      ParsedFields(pairs);
      BuildKeys(pairs);
      BuildOptional(pairs);
      KnownOrderIsKnown("v");
      BuildFields(pairs, "v");
      assert Get(r, "v") == pairs[0].value;
      forall t | t in KNOWN_ORDER && Optional(t) && Present(r, t)
        ensures t in r.parsedOptional
      {
        KnownOrderIsKnown(t);
        BuildFields(pairs, t);
        BlankOptional(t);
      }
      forall t | t in r.parsedOptional
        ensures t in ListedOptional(r)
      {
        OptionalInOrder(t);
      }
    }
  }

  /** Parsing, serializing and parsing again changes nothing. */
  lemma ParsedRoundTrip(raw: string)
    ensures Parse(raw).Ok? ==> Parse(Serialize(Parse(raw).value)) == Parse(raw)
  {
    hide Parse, Serialize, ListedOptional, RecordOk;
    if Parse(raw).Ok? {
      ParsedIsOk(raw);
      SerializedParsesBack(Parse(raw).value);
    }
  }

  // ---- The unsigned canonical parser ----

  function Unrender(item: string): Pair
    requires '=' in item
  {
    Pair(item[..Find(item, '=')], item[Find(item, '=') + 1..])
  }

  function UnrenderAll(items: seq<string>): seq<Pair>
    requires forall i | 0 <= i < |items| :: '=' in items[i]
  {
    seq(|items|, i requires 0 <= i < |items| => Unrender(items[i]))
  }

  lemma UnrenderRender(p: Pair)
    requires '=' !in p.tag
    ensures '=' in Render(p) && Unrender(Render(p)) == p
  {
    RenderParts(p);
    assert Render(p)[|p.tag|] == '=';
  }

  /** The sorted items of valid pairs are the same pairs, in order of their names. */
  lemma SortedPairs(pairs: seq<Pair>) returns (sorted: seq<Pair>)
    requires ValidPairs(pairs)
    ensures ValidPairs(sorted) && SamePairs(sorted, pairs) && |sorted| == |pairs|
    ensures RenderAll(sorted) == Sort(RenderAll(pairs), true)
  {
    hide Sort, Render, ValidName, ValidValue, Key, Less;
    forall p | p in pairs
      ensures '=' !in p.tag
    {
      NameHasNoEquals(p.tag);
    }
    RenderedKeys(pairs);
    SortIncreasing(RenderAll(pairs), true);
    var items := Sort(RenderAll(pairs), true);
    forall i | 0 <= i < |items|
      ensures '=' in items[i] && Unrender(items[i]) in pairs && Render(Unrender(items[i])) == items[i]
    {
      ItemIsAPair(pairs, items[i]);
    }
    sorted := UnrenderAll(items);
    forall i, j | 0 <= i < j < |sorted|
      ensures sorted[i].tag != sorted[j].tag
    {
      RenderParts(sorted[i]);
      RenderParts(sorted[j]);
      LessTotal(sorted[i].tag, sorted[j].tag);
    }
    assert RenderAll(sorted) == items;
    RenderedElements(sorted, pairs);
  }

  lemma ItemIsAPair(pairs: seq<Pair>, item: string)
    requires item in Elements(RenderAll(pairs)) && forall p | p in pairs :: '=' !in p.tag
    ensures '=' in item && Unrender(item) in pairs && Render(Unrender(item)) == item
  {
    hide Render;
    var j :| 0 <= j < |pairs| && RenderAll(pairs)[j] == item;
    assert pairs[j] in pairs;
    UnrenderRender(pairs[j]);
  }

  lemma {:induction false} VersionOfMeans(pairs: seq<Pair>, version: string)
    requires DistinctTags(pairs) && Pair("v", version) in pairs
    ensures VersionOf(pairs) == version
  {
    var n := |pairs| - 1;
    assert pairs == pairs[..n] + [pairs[n]];
    var i :| 0 <= i < |pairs| && pairs[i] == Pair("v", version);
    if i < n {
      assert pairs[..n][i] == pairs[i];
      VersionOfMeans(pairs[..n], version);
    }
  }

  lemma {:induction false} VersionOfFound(pairs: seq<Pair>)
    requires VersionOf(pairs) != []
    ensures Pair("v", VersionOf(pairs)) in pairs
  {
    var n := |pairs| - 1;
    if pairs != [] {
      assert pairs == pairs[..n] + [pairs[n]];
      if pairs[n].tag != "v" {
        VersionOfFound(pairs[..n]);
      }
    }
  }

  /** The canonical form of a well-formed record is read by the unsigned parser, as the tags it signs. */
  lemma UnsignedAcceptsCanonical(r: Record)
    requires RecordOk(r)
    ensures ParseUnsigned(Canonical(r)).Ok?
    ensures SamePairs(AllPairs(ParseUnsigned(Canonical(r)).value), SignedPairs(r))
    ensures Canonical(ParseUnsigned(Canonical(r)).value) == Canonical(r)
  {
    hide Get, AllPairs, Build, Canonical, Known, Required, RecordOk, DropTag, Split, ParseElements, Supported,
         ValidPair, Sort, Join, VersionOf, Body, WireElements, RenderAll;
    var pairs := SignedListing(r);
    var spaces := NoSpaces(|pairs|);
    SplitWire(pairs, spaces, false);
    ElementsAccept(pairs, spaces, true);
    VersionOfMeans(pairs, Get(r, "v"));
    VersionSupported(r);
    assert Get(r, "v") != [] by { VersionFilled(Get(r, "v")); }
    BuildKeepsPairs(pairs);
    var q := Build(pairs);
    assert !HasTag(pairs, "sg");
    DropTagKeeps(AllPairs(q), "sg");
    ListingValid(pairs);
    ListedPairs(r);
    assert Pair("v", Get(r, "v")) in SignedPairs(q);
    CanonicalSignsThePairs(q, r);
  }

  lemma VersionFilled(version: string)
    requires Supported(version)
    ensures version != []
  {
  }

  /** What the unsigned parser reads in a canonical form. */
  lemma SignedListing(r: Record) returns (pairs: seq<Pair>)
    requires RecordOk(r)
    ensures ValidPairs(pairs) && SamePairs(pairs, SignedPairs(r)) && pairs != []
    ensures Canonical(r) == Wire(pairs, NoSpaces(|pairs|), false) && Layout(pairs, NoSpaces(|pairs|))
    ensures Pair("v", Get(r, "v")) in pairs && HasTag(pairs, "v") && !HasTag(pairs, "sg")
    ensures HasRequired(pairs, true) && NoEmptyRequired(pairs)
  {
    hide Get, AllPairs, Canonical, Required, RecordOk, DropTag, ValidPair, Sort, Join, RenderAll;
    ListedPairs(r);
    VersionFirst(r);
    var all := AllPairs(r);
    DropTagKeeps(all, "sg");
    NamesOf(all);
    CanonicalOfSigned(r);
    pairs := SortedPairs(SignedPairs(r));
    PlainElements(pairs);
    assert RenderAll(pairs) + [] == RenderAll(pairs);
    assert all[0] in pairs;
    forall t | t in KNOWN_ORDER && Required(t) && t != "sg"
      ensures HasTag(pairs, t)
    {
      assert HasTag(all, t);
      var i :| 0 <= i < |all| && all[i].tag == t;
      assert all[i] in pairs;
    }
    forall i | 0 <= i < |pairs| && Required(pairs[i].tag)
      ensures pairs[i].value != []
    {
      assert pairs[i] in all;
    }
  }

  /** In a text that is its own canonical form no required tag is empty: the canonical form would have
      dropped it. */
  lemma CanonicalHasNoEmptyRequired(raw: string)
    ensures ParseUnsigned(raw).Ok? ==>
              ParseElements(Body(Split(raw, ';')), true).Ok? && NoEmptyRequired(PairsOf(raw, true))
  {
    hide Get, AllPairs, Build, Canonical, Required, Optional, DropTag, Split, ParseElements, Supported, ValidPair,
         Sort, Join, VersionOf, WireElements, RenderAll, Render, HasRequired;
    if ParseUnsigned(raw).Ok? {
      ElementsLayout(raw, true);
      var pairs := PairsOf(raw, true);
      var q := Build(pairs);
      VersionFilled(VersionOf(pairs));
      VersionOfFound(pairs);
      assert HasTag(pairs, "v");
      ListingFromPairs(pairs);
      ListingValid(pairs);
      forall i | 0 <= i < |pairs| && Required(pairs[i].tag)
        ensures pairs[i].value != []
      {
        CanonicalElement(raw, q, pairs, SpacesOf(Body(Split(raw, ';'))), i);
        RequiredListed(q, pairs, pairs[i]);
      }
    }
  }

  /** Every element of a text that is the record's canonical form is one of the record's pairs. */
  lemma CanonicalElement(raw: string, q: Record, pairs: seq<Pair>, spaces: seq<bool>, i: nat)
    requires raw == Canonical(q) && ValidPairs(AllPairs(q)) && ValidPairs(pairs) && Layout(pairs, spaces)
    requires i < |pairs| && Body(Split(raw, ';')) == WireElements(pairs, spaces)
    ensures pairs[i] in AllPairs(q)
  {
    hide AllPairs, Canonical, DropTag, Split, ValidPair, Sort, Join, RenderAll, Render, SamePairs;
    var signed := SignedPairs(q);
    NamesOf(AllPairs(q));
    DropTagKeeps(AllPairs(q), "sg");
    CanonicalOfSigned(q);
    SortedParts(signed);
    assert signed != [] by {
      if signed == [] { EmptyJoin(); }
    }
    SplitOfJoin(Sort(RenderAll(signed), true), ';');
    RenderedKeys(signed);
    SortIncreasing(RenderAll(signed), true);
    var item := Element(pairs[i], spaces[i]);
    assert WireElements(pairs, spaces)[i] == item;
    assert item in Elements(Sort(RenderAll(signed), true));
    ItemIsAPair(signed, item);
    SpacelessElement(pairs[i], spaces[i], Unrender(item));
  }

  lemma EmptyJoin()
    ensures Join([], ';') == "" && Split("", ';') == [""] && Body([""]) == []
    ensures Sort([], true) == [] && RenderAll([]) == []
  {
  }

  lemma SpacelessElement(p: Pair, space: bool, q: Pair)
    requires ValidPair(p) && ValidPair(q) && Element(p, space) == Render(q)
    ensures p == q
  {
    NameHasNoEquals(p.tag);
    NameHasNoEquals(q.tag);
    assert Render(q)[0] == q.tag[0];
    assert Element(p, false) == Render(p);
    RenderInjective(p, q);
  }

  lemma RequiredListed(q: Record, pairs: seq<Pair>, p: Pair)
    requires q == Build(pairs) && p in AllPairs(q) && Required(p.tag)
    ensures p.value != []
  {
    hide Get, AllPairs, Build, Required, Optional;
    AllPairsMean(q);
    BuildOptional(pairs);
    OptionalNotRequired(p.tag);
    if p in q.unknown {
      UnknownStays(pairs);
    }
  }

  lemma {:induction false} UnknownStays(pairs: seq<Pair>)
    ensures forall p | p in Build(pairs).unknown :: !Known(p.tag)
  {
    hide Required, Optional;
    if pairs != [] {
      UnknownStays(pairs[..|pairs| - 1]);
    }
  }

  /** With no identity to check against, the unsigned parser accepts exactly the canonical forms of
      well-formed records. */
  lemma UnsignedAcceptsExactly(raw: string)
    ensures ParseUnsigned(raw).Ok? <==> exists r :: RecordOk(r) && Canonical(r) == raw
  {
    hide ParseUnsigned, RecordOk, Canonical;
    if ParseUnsigned(raw).Ok? {
      var r := SignedRecord(raw);
    }
    if r :| RecordOk(r) && Canonical(r) == raw {
      UnsignedAcceptsCanonical(r);
    }
  }

  /** A well-formed record whose canonical form an accepted text is. */
  lemma SignedRecord(raw: string) returns (r: Record)
    requires ParseUnsigned(raw).Ok?
    ensures RecordOk(r) && Canonical(r) == raw
  {
    hide Get, AllPairs, Build, Canonical, DropTag, Split, ParseElements, Supported, ValidPair, Sort, Join, VersionOf,
         WireElements, RecordOk, NoEmptyRequired, HasRequired, Put;
    CanonicalHasNoEmptyRequired(raw);
    ElementsLayout(raw, true);
    var pairs := PairsOf(raw, true);
    VersionFilled(VersionOf(pairs));
    VersionOfFound(pairs);
    SignedRecordOk(pairs);
    SignedSame(pairs);
    r := Put(Build(pairs), "sg", "x");
  }

  lemma SignedRecordOk(pairs: seq<Pair>)
    requires ValidPairs(pairs) && Pair("v", VersionOf(pairs)) in pairs && Supported(VersionOf(pairs))
    requires HasRequired(pairs, true) && NoEmptyRequired(pairs)
    ensures RecordOk(Put(Build(pairs), "sg", "x"))
  {
    hide Get, Build, Known, Required, Optional, Supported, ValidName, ValidValue, VersionOf, Put;
    var q := Build(pairs);
    var r := Put(q, "sg", "x");
    assert HasTag(pairs, "v");
    ParsedFields(pairs);
    BuildKeys(pairs);
    BuildOptional(pairs);
    SignedFields(q);
    KnownOrderIsKnown("v");
    BuildFields(pairs, "v");
    forall t | t in KNOWN_ORDER && Required(t)
      ensures Get(r, t) != []
    {
      KnownOrderIsKnown(t);
      if t != "sg" {
        assert HasTag(pairs, t);
        BuildFields(pairs, t);
      }
    }
  }

  lemma SignedSame(pairs: seq<Pair>)
    requires ValidPairs(pairs) && Pair("v", VersionOf(pairs)) in pairs && NoEmptyRequired(pairs)
    requires RecordOk(Put(Build(pairs), "sg", "x"))
    ensures Canonical(Put(Build(pairs), "sg", "x")) == Canonical(Build(pairs))
  {
    hide Get, AllPairs, Build, Canonical, DropTag, ValidPair, VersionOf, RecordOk, NoEmptyRequired, Put, HasRequired;
    var q := Build(pairs);
    var r := Put(q, "sg", "x");
    assert HasTag(pairs, "v");
    BuildKeys(pairs);
    ListingValid(pairs);
    ListedPairs(r);
    SamelySigned(q);
    BuildKeepsPairs(pairs);
    DropTagKeeps(AllPairs(q), "sg");
    DropTagKeeps(AllPairs(r), "sg");
    assert Pair("v", VersionOf(pairs)) in SignedPairs(q);
    CanonicalSignsThePairs(q, r);
  }

  lemma SignedFields(q: Record)
    requires q.fields.Keys == BLANK.fields.Keys
    ensures var r := Put(q, "sg", "x");
            && r.fields.Keys == q.fields.Keys && Get(r, "sg") == "x" && ValidValue("x")
            && r.unknown == q.unknown && r.parsedOptional == q.parsedOptional
            && forall t | t != "sg" :: Get(r, t) == Get(q, t)
  {
  }

  lemma SamelySigned(q: Record)
    requires q.fields.Keys == BLANK.fields.Keys
    ensures forall p: Pair | p.tag != "sg" :: p in AllPairs(q) <==> p in AllPairs(Put(q, "sg", "x"))
  {
    hide AllPairs, Get, Known;
    AllPairsMean(q);
    AllPairsMean(Put(q, "sg", "x"));
    SignedFields(q);
  }

  // ---- The known-tags form ----

  /** No known name begins another. */
  lemma KnownNamesDiverge(a: string, b: string)
    requires Known(a) && Known(b) && a != b
    ensures Diverge(a, b)
  {
  }

  lemma KnownItemsOrder(p: Pair, q: Pair)
    requires Known(p.tag) && Known(q.tag) && Less(p.tag, q.tag)
    ensures Less(Render(p), Render(q))
  {
    LessTotal(p.tag, q.tag);
    KnownNamesDiverge(p.tag, q.tag);
    LessByPrefix(p.tag, q.tag, "=" + p.value, "=" + q.value);
    assert Render(p) == p.tag + ("=" + p.value) && Render(q) == q.tag + ("=" + q.value);
  }

  /** On known tags, sorting by name and sorting whole strings agree. */
  lemma KnownSortsAgree(pairs: seq<Pair>)
    requires DistinctTags(pairs) && forall p | p in pairs :: Known(p.tag)
    ensures Sort(RenderAll(pairs), true) == Sort(RenderAll(pairs), false)
  {
    hide Render, Known, Sort, Less;
    forall p | p in pairs
      ensures '=' !in p.tag
    {
      KnownNamesValid(p.tag);
      NameHasNoEquals(p.tag);
    }
    RenderedKeys(pairs);
    var items := RenderAll(pairs);
    assert DistinctKeys(items, false);
    SortIncreasing(items, true);
    SortIncreasing(items, false);
    var sorted := Sort(items, true);
    forall i, j | 0 <= i < j < |sorted|
      ensures Less(Key(sorted[i], false), Key(sorted[j], false))
    {
      ItemIsAPair(pairs, sorted[i]);
      ItemIsAPair(pairs, sorted[j]);
      RenderParts(Unrender(sorted[i]));
      RenderParts(Unrender(sorted[j]));
      KnownItemsOrder(Unrender(sorted[i]), Unrender(sorted[j]));
    }
    IncreasingUnique(sorted, Sort(items, false), false);
  }

  /** The known-tags form of any record is the canonical form of the record without its extension tags,
      although it sorts whole strings where the canonical form sorts names. */
  lemma KnownTagsFormIsCanonical(r: Record)
    ensures KnownTagsCanonical(r) == Canonical(r.(unknown := []))
  {
    hide Render, Known, Sort, KnownPairs, RenderAll, Get, Join, Present;
    var q := r.(unknown := []);
    OrderDistinct();
    KnownPairsMean(r, UNSIGNED_ORDER);
    var known := KnownPairs(r, UNSIGNED_ORDER);
    forall p | p in known
      ensures Known(p.tag) && p.tag != "sg"
    {
      KnownOrderIsKnown(p.tag);
    }
    KnownSortsAgree(known);
    KnownListing(r);
    KnownPairsKnown(q);
    forall p | p in AllPairs(q)
      ensures '=' !in p.tag
    {
      KnownNamesValid(p.tag);
      NameHasNoEquals(p.tag);
    }
    CanonicalOfSigned(q);
  }

  lemma KnownListing(r: Record)
    ensures SignedPairs(r.(unknown := [])) == KnownPairs(r, UNSIGNED_ORDER)
  {
    hide Get;
    var q := r.(unknown := []);
    assert KNOWN_ORDER == UNSIGNED_ORDER[..6] + ["sg"] + UNSIGNED_ORDER[6..];
    assert UNSIGNED_ORDER == UNSIGNED_ORDER[..6] + UNSIGNED_ORDER[6..];
    SameKnown(q, r, KNOWN_ORDER) by { assert forall t :: Get(q, t) == Get(r, t) by { SameGet(r); } }
    DropFromKnown(r, UNSIGNED_ORDER[..6], UNSIGNED_ORDER[6..]);
    assert AllPairs(q) == KnownPairs(r, KNOWN_ORDER);
  }

  lemma SameGet(r: Record)
    ensures forall t :: Get(r.(unknown := []), t) == Get(r, t)
  {
  }

  lemma {:induction false} SameKnown(q: Record, r: Record, order: seq<string>)
    requires q.parsedOptional == r.parsedOptional && forall t :: Get(q, t) == Get(r, t)
    ensures KnownPairs(q, order) == KnownPairs(r, order)
  {
    hide Get;
    if order != [] {
      SameKnown(q, r, order[1..]);
    }
  }

  lemma DropFromKnown(r: Record, before: seq<string>, after: seq<string>)
    requires "sg" !in before && "sg" !in after
    ensures DropTag(KnownPairs(r, before + ["sg"] + after), "sg") == KnownPairs(r, before + after)
  {
    hide Get, Present, KnownPairs, DropTag;
    var a, b, c := KnownPairs(r, before), KnownPairs(r, ["sg"]), KnownPairs(r, after);
    KnownConcat(r, before + ["sg"], after);
    KnownConcat(r, before, ["sg"]);
    KnownConcat(r, before, after);
    DropConcat(a + b, c, "sg");
    DropConcat(a, b, "sg");
    KnownPairsTags(r, before);
    KnownPairsTags(r, ["sg"]);
    KnownPairsTags(r, after);
    DropAbsent(a, "sg");
    DropAbsent(c, "sg");
    DropTagKeeps(b, "sg");
    NoMembers(DropTag(b, "sg"));
  }

  lemma NoMembers(pairs: seq<Pair>)
    ensures pairs == [] || exists p :: p in pairs
  {
    if pairs != [] {
      assert pairs[0] in pairs;
    }
  }

  lemma {:induction false} DropConcat(a: seq<Pair>, b: seq<Pair>, tag: string)
    ensures DropTag(a + b, tag) == DropTag(a, tag) + DropTag(b, tag)
  {
    if a == [] {
      assert a + b == b;
    } else {
      assert (a + b)[1..] == a[1..] + b;
      DropConcat(a[1..], b, tag);
    }
  }

  lemma {:induction false} KnownConcat(r: Record, a: seq<string>, b: seq<string>)
    ensures KnownPairs(r, a + b) == KnownPairs(r, a) + KnownPairs(r, b)
  {
    hide Get, Present;
    if a == [] {
      assert a + b == b;
    } else {
      assert (a + b)[1..] == a[1..] + b;
      KnownConcat(r, a[1..], b);
    }
  }

  lemma {:induction false} KnownPairsTags(r: Record, order: seq<string>)
    ensures forall p | p in KnownPairs(r, order) :: p.tag in order
  {
    hide Get, Present;
    if order != [] {
      KnownPairsTags(r, order[1..]);
    }
  }
}
