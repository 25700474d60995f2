/** The musicians directory: each musician's instrument names one of six categories. */
module MusiciansContext {
  import opened Basics
  import opened Text
  import opened Entities

  datatype Category = Vocals | Strings | Keys | Rhythm | Wind | Other

  /** The display name, which is also the bucket's key. */
  function Label(c: Category): string {
    match c
    case Vocals => "Singing & Vocals"
    case Strings => "Strings"
    case Keys => "Keys & Piano"
    case Rhythm => "Rhythm & Percussion"
    case Wind => "Wind & Brass"
    case Other => "Other"
  }

  /** The keyword categories in the order they are tried. */
  const Priority: seq<Category> := [Vocals, Strings, Keys, Rhythm, Wind]

  /** The alternatives of each category's pattern. */
  function Keywords(c: Category): seq<string> {
    match c
    case Vocals => ["voice", "vocal", "sing", "choir"]
    case Strings => ["guitar", "violin", "cello", "ukulele", "string"]
    case Keys => ["piano", "keyboard", "keys", "synth"]
    case Rhythm => ["drum", "percussion", "cajon", "rhythm"]
    case Wind => ["flute", "sax", "trumpet", "clarinet", "wind", "brass"]
    case Other => []
  }

  /** `/(a|b|...)/.test(value)`: some alternative occurs in the text. */
  predicate MatchesCategory(value: string, c: Category) {
    exists k :: k in Keywords(c) && Contains(value, k)
  }

  /** The reference rule: the first category of `order` whose pattern occurs in `value`, else Other. */
  function FirstMatching(value: string, order: seq<Category>): Category {
    if order == [] then Other
    else if order[0] != Other && MatchesCategory(value, order[0]) then order[0]
    else FirstMatching(value, order[1..])
  }

  /** `c` sits at position `i` of `order`, its pattern matches, and no matching category comes before it. */
  predicate FirstAt(value: string, order: seq<Category>, i: int, c: Category) {
    0 <= i < |order| && order[i] == c && MatchesCategory(value, c) &&
    forall j :: 0 <= j < i ==> order[j] == Other || !MatchesCategory(value, order[j])
  }

  /**
   * The reference rule picks a category whose pattern matches and that no earlier category's pattern
   * beats, and falls back to Other only when no pattern matches at all.
   */
  lemma {:induction false} FirstMatchingIsFirst(value: string, order: seq<Category>)
    ensures var c := FirstMatching(value, order);
      (c == Other || exists i :: FirstAt(value, order, i, c)) &&
      (c == Other ==> forall d :: d in order && d != Other ==> !MatchesCategory(value, d))
  {
    if order != [] {
      FirstMatchingIsFirst(value, order[1..]);
      var c := FirstMatching(value, order);
      if order[0] != Other && MatchesCategory(value, order[0]) {
        assert FirstAt(value, order, 0, c);
      }
      if !(order[0] != Other && MatchesCategory(value, order[0])) && c != Other {
        var i :| FirstAt(value, order[1..], i, c);
        assert order[i + 1] == c;
        assert forall j :: 0 <= j < i + 1 ==> order[j] == Other || !MatchesCategory(value, order[j]);
        assert FirstAt(value, order, i + 1, c);
      }
      if c == Other {
        forall d | d in order && d != Other
          ensures !MatchesCategory(value, d)
        {
          if d != order[0] {
            assert d in order[1..];
          }
        }
      }
    }
  }

  /** The lower-cased instrument, with a missing one read as the empty string. */
  function Normalized(instrument: Option<string>): string {
    ToLower(if instrument.Some? then instrument.value else "")
  }

  /** The reference rule over the fixed priority order, unfolded one category at a time. */
  lemma PriorityChain(value: string)
    ensures FirstMatching(value, Priority) ==
      if MatchesCategory(value, Vocals) then Vocals
      else if MatchesCategory(value, Strings) then Strings
      else if MatchesCategory(value, Keys) then Keys
      else if MatchesCategory(value, Rhythm) then Rhythm
      else if MatchesCategory(value, Wind) then Wind
      else Other
  {
    var p1 := [Strings, Keys, Rhythm, Wind];
    var p2 := [Keys, Rhythm, Wind];
    var p3 := [Rhythm, Wind];
    var p4 := [Wind];
    assert Priority[1..] == p1 && p1[1..] == p2 && p2[1..] == p3 && p3[1..] == p4 && p4[1..] == [];
    assert FirstMatching(value, p4) == if MatchesCategory(value, Wind) then Wind else Other;
    assert FirstMatching(value, p3) == if MatchesCategory(value, Rhythm) then Rhythm else FirstMatching(value, p4);
    assert FirstMatching(value, p2) == if MatchesCategory(value, Keys) then Keys else FirstMatching(value, p3);
    assert FirstMatching(value, p1) == if MatchesCategory(value, Strings) then Strings else FirstMatching(value, p2);
    assert FirstMatching(value, Priority) ==
      if MatchesCategory(value, Vocals) then Vocals else FirstMatching(value, p1);
  }

  /** `getCategory(instrument = '')`: the chain of pattern tests, one category after another. */
  function GetCategory(instrument: Option<string>): (c: Category)
    ensures c == FirstMatching(Normalized(instrument), Priority)
  {
    var value := Normalized(instrument);
    PriorityChain(value);
    if MatchesCategory(value, Vocals) then Vocals
    else if MatchesCategory(value, Strings) then Strings
    else if MatchesCategory(value, Keys) then Keys
    else if MatchesCategory(value, Rhythm) then Rhythm
    else if MatchesCategory(value, Wind) then Wind
    else Other
  }

  /** Case does not matter: an instrument and its lower-cased spelling fall in one category. */
  lemma CaseInsensitive(instrument: string)
    ensures GetCategory(Some(instrument)) == GetCategory(Some(ToLower(instrument)))
  {
    ToLowerIdempotent(instrument);
  }

  /** No text matches a pattern in the empty string, so a missing instrument is Other. */
  lemma MissingInstrumentIsOther()
    ensures GetCategory(None) == Other
  {
    assert ToLower("") == "";
    forall c, k | k in Keywords(c)
      ensures !Contains("", k)
    {
      assert |k| > 0;
    }
  }

  /** The vocal pattern is tried first: "Vocal Guitar" is a singer, not a string player. */
  lemma VocalsBeforeStrings()
    ensures GetCategory(Some("Vocal Guitar")) == Vocals
  {
    var value := ToLower("Vocal Guitar");
    assert value == "vocal guitar";
    assert IsPrefix("vocal", value);
    assert "vocal" in Keywords(Vocals);
  }

  predicate InCategory(m: Musician, c: Category) {
    GetCategory(m.instrument) == c
  }

  function CategoryOf(c: Category): Musician -> bool {
    (m: Musician) => InCategory(m, c)
  }

  /** Every category, which is every bucket. */
  function AllCategories(): set<Category> {
    {Vocals, Strings, Keys, Rhythm, Wind, Other}
  }

  lemma EveryCategory()
    ensures forall c :: c in AllCategories()
  {
    forall c
      ensures c in AllCategories()
    {
      match c
      case Vocals =>
      case Strings =>
      case Keys =>
      case Rhythm =>
      case Wind =>
      case Other =>
    }
  }

  lemma {:induction false} FilterSnoc(s: seq<Musician>, m: Musician, keep: Musician -> bool)
    ensures Filter(s + [m], keep) == Filter(s, keep) + (if keep(m) then [m] else [])
  {
    FilterAppend(s, [m], keep);
    assert Filter([m], keep) == (if keep(m) then [m] else []) + Filter([m][1..], keep);
  }

  /** One iteration of the bucket loop keeps every bucket equal to its category's filter of the prefix. */
  lemma PushStep(bucket: map<Category, seq<Musician>>, prefix: seq<Musician>, m: Musician)
    requires forall c :: c in bucket && bucket[c] == Filter(prefix, CategoryOf(c))
    ensures var own := GetCategory(m.instrument);
      var next := bucket[own := bucket[own] + [m]];
      forall c :: c in next && next[c] == Filter(prefix + [m], CategoryOf(c))
  {
    EveryCategory();
    var own := GetCategory(m.instrument);
    var next := bucket[own := bucket[own] + [m]];
    forall c
      ensures next[c] == Filter(prefix + [m], CategoryOf(c))
    {
      FilterSnoc(prefix, m, CategoryOf(c));
    }
  }

  /**
   * `categorized`: six buckets, created empty, keyed here by category (the source keys them by
   * `Label`); each musician is pushed onto its category's bucket in list order.
   */
  method Categorize(musicians: seq<Musician>) returns (bucket: map<Category, seq<Musician>>)
    ensures forall c :: c in bucket && bucket[c] == Filter(musicians, CategoryOf(c))
  {
    bucket := map[Vocals := [], Strings := [], Keys := [], Rhythm := [], Wind := [], Other := []];
    EveryCategory();
    forall c
      ensures c in bucket && bucket[c] == Filter(musicians[..0], CategoryOf(c))
    {
      assert musicians[..0] == [];
      match c
      case Vocals =>
      case Strings =>
      case Keys =>
      case Rhythm =>
      case Wind =>
      case Other =>
    }
    for i := 0 to |musicians|
      invariant forall c :: c in bucket && bucket[c] == Filter(musicians[..i], CategoryOf(c))
    {
      PushStep(bucket, musicians[..i], musicians[i]);
      assert musicians[..i + 1] == musicians[..i] + [musicians[i]];
      var own := GetCategory(musicians[i].instrument);
      bucket := bucket[own := bucket[own] + [musicians[i]]];
    }
    assert musicians[..|musicians|] == musicians;
  }

  function BucketTotal(musicians: seq<Musician>): nat {
    |Filter(musicians, CategoryOf(Vocals))| + |Filter(musicians, CategoryOf(Strings))| +
    |Filter(musicians, CategoryOf(Keys))| + |Filter(musicians, CategoryOf(Rhythm))| +
    |Filter(musicians, CategoryOf(Wind))| + |Filter(musicians, CategoryOf(Other))|
  }

  /** Every musician lands in exactly one bucket, so the bucket sizes add up to the number of musicians. */
  lemma {:induction false} BucketsPartition(musicians: seq<Musician>)
    ensures BucketTotal(musicians) == |musicians|
  {
    if musicians != [] {
      BucketsPartition(musicians[1..]);
    }
  }
}
