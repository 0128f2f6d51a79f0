/**
 * The RecipeTag enum (breakfast, lunch, dinner) and the compact string form a
 * recipe's tag set is stored in: one character per tag, in declaration order.
 */
module RecipeTags {
  import opened Wrappers

  /** The meal slots; declared in the order B, L, D, which is the iteration order of an EnumSet. */
  datatype RecipeTag = B | L | D

  const DeclarationOrder: seq<RecipeTag> := [B, L, D]

  const AllTags: set<RecipeTag> := {B, L, D}

  function Ordinal(t: RecipeTag): nat
  {
    match t
    case B => 0
    case L => 1
    case D => 2
  }

  /** The single letter that is the constant's name. */
  function Letter(t: RecipeTag): char
  {
    match t
    case B => 'B'
    case L => 'L'
    case D => 'D'
  }

  /** toString of an enum constant: its name. */
  function Name(t: RecipeTag): string
  {
    [Letter(t)]
  }

  /** Whether a single character is the name of a tag. */
  predicate IsTagLetter(c: char)
  {
    c == 'B' || c == 'L' || c == 'D'
  }

  /** The tag a letter names. */
  function TagOf(c: char): (t: RecipeTag)
    requires IsTagLetter(c)
    ensures Letter(t) == c
  {
    if c == 'B' then B else if c == 'L' then L else D
  }

  /** RecipeTag.valueOf: the constant with exactly this name; None where Java throws IllegalArgumentException. */
  function ValueOf(s: string): (r: Option<RecipeTag>)
    ensures r.Some? ==> Name(r.value) == s
    ensures r.None? ==> forall t :: Name(t) != s
  {
    if |s| == 1 && IsTagLetter(s[0]) then Some(TagOf(s[0])) else None
  }

  // ---------------------------------------------------------------------------
  // Encoding: tags.stream().map(RecipeTag::toString).collect(Collectors.joining())

  /** The members of `tags`, listed in the order of `order` (an EnumSet stream). */
  function InOrder(tags: set<RecipeTag>, order: seq<RecipeTag>): (r: seq<RecipeTag>)
  {
    if order == [] then []
    else (if order[0] in tags then [order[0]] else []) + InOrder(tags, order[1..])
  }

  /** Collectors.joining() with no separator. */
  function Join(pieces: seq<string>): string
  {
    if pieces == [] then "" else pieces[0] + Join(pieces[1..])
  }

  function Names(ts: seq<RecipeTag>): (r: seq<string>)
    ensures |r| == |ts|
  {
    seq(|ts|, i requires 0 <= i < |ts| => Name(ts[i]))
  }

  /** getTagsAsString: the tag names concatenated in declaration order. */
  function Encode(tags: set<RecipeTag>): string
  {
    Join(Names(InOrder(tags, DeclarationOrder)))
  }

  // ---------------------------------------------------------------------------
  // Decoding: Arrays.stream(s.split("")).map(RecipeTag::valueOf).collect(toCollection(EnumSet))

  /**
   * String.split("") (Java 8 and later): the empty string gives the single
   * piece "", any other string one piece per character.
   */
  function SplitChars(s: string): (pieces: seq<string>)
  {
    if s == "" then [""] else seq(|s|, i requires 0 <= i < |s| => [s[i]])
  }

  /**
   * Looks each piece up with valueOf, in order, and collects the tags into a
   * set; the first piece that names no tag aborts the stream and is reported.
   */
  function CollectTags(pieces: seq<string>): (r: Result<set<RecipeTag>, string>)
    ensures r.Success? <==> forall i :: 0 <= i < |pieces| ==> ValueOf(pieces[i]).Some?
    ensures r.Success? ==> forall t :: t in r.value <==> exists i :: 0 <= i < |pieces| && ValueOf(pieces[i]) == Some(t)
    ensures r.Failure? ==> exists k :: 0 <= k < |pieces| && pieces[k] == r.error && ValueOf(pieces[k]).None? &&
                                       forall i :: 0 <= i < k ==> ValueOf(pieces[i]).Some?
  {
    if pieces == [] then Success({})
    else match ValueOf(pieces[0])
      case None => Failure(pieces[0])
      case Some(t) =>
        match CollectTags(pieces[1..])
        case Failure(e) =>
          assert forall i :: 1 <= i < |pieces| ==> pieces[i] == pieces[1..][i - 1];
          Failure(e)
        case Success(ts) =>
          assert forall i :: 1 <= i < |pieces| ==> pieces[i] == pieces[1..][i - 1];
          Success({t} + ts)
  }

  /** setTagsAsString's computation: Success(tags) or Failure(piece) for the piece valueOf rejects. */
  function Decode(s: string): Result<set<RecipeTag>, string>
  {
    CollectTags(SplitChars(s))
  }

  // ---------------------------------------------------------------------------
  // Properties of the two directions

  lemma LetterNamesTag(c: char, t: RecipeTag)
    ensures ValueOf([c]) == Some(t) <==> c == Letter(t)
  {
  }

  /** With one letter per tag, joining the names is listing the letters. */
  lemma {:induction false} JoinNamesIsLetters(ts: seq<RecipeTag>)
    ensures Join(Names(ts)) == seq(|ts|, i requires 0 <= i < |ts| => Letter(ts[i]))
  {
    if ts != [] {
      JoinNamesIsLetters(ts[1..]);
      assert Names(ts)[1..] == Names(ts[1..]);
    }
  }

  lemma SizeByMembers(tags: set<RecipeTag>)
    ensures |tags| == (if B in tags then 1 else 0) + (if L in tags then 1 else 0) + (if D in tags then 1 else 0)
  {
    var withoutB := tags - {B};
    var withoutBL := withoutB - {L};
    var withoutBLD := withoutBL - {D};
    assert |tags| == |withoutB| + (if B in tags then 1 else 0);
    assert |withoutB| == |withoutBL| + (if L in tags then 1 else 0);
    assert |withoutBL| == |withoutBLD| + (if D in tags then 1 else 0);
    forall t ensures t !in withoutBLD {
      match t { case B => case L => case D => }
    }
    assert withoutBLD == {};
  }

  lemma LetterNamesItsTag(t: RecipeTag)
    ensures IsTagLetter(Letter(t)) && TagOf(Letter(t)) == t
  {
  }

  /** The EnumSet stream written out tag by tag. */
  lemma InOrderByMembers(tags: set<RecipeTag>)
    ensures InOrder(tags, DeclarationOrder) == (if B in tags then [B] else []) + (if L in tags then [L] else []) + (if D in tags then [D] else [])
  {
    assert DeclarationOrder[1..] == [L, D];
    assert [L, D][1..] == [D];
    assert [D][1..] == [];
    assert InOrder(tags, [D]) == (if D in tags then [D] else []) + InOrder(tags, []);
    assert InOrder(tags, [L, D]) == (if L in tags then [L] else []) + InOrder(tags, [D]);
  }

  /** The stream lists every member once, nothing else, in declaration order. */
  lemma InOrderSpec(tags: set<RecipeTag>)
    ensures |InOrder(tags, DeclarationOrder)| == |tags|
    ensures forall i :: 0 <= i < |InOrder(tags, DeclarationOrder)| ==> InOrder(tags, DeclarationOrder)[i] in tags
    ensures forall t :: t in tags ==> t in InOrder(tags, DeclarationOrder)
    ensures forall i, j :: 0 <= i < j < |InOrder(tags, DeclarationOrder)| ==>
              Ordinal(InOrder(tags, DeclarationOrder)[i]) < Ordinal(InOrder(tags, DeclarationOrder)[j])
  {
    InOrderByMembers(tags);
    SizeByMembers(tags);
    forall t | t in tags ensures t in InOrder(tags, DeclarationOrder) {
      match t { case B => case L => case D => }
    }
  }

  /** The encoding written out tag by tag. */
  lemma EncodeByMembers(tags: set<RecipeTag>)
    ensures Encode(tags) == (if B in tags then "B" else "") + (if L in tags then "L" else "") + (if D in tags then "D" else "")
  {
    var order := InOrder(tags, DeclarationOrder);
    InOrderByMembers(tags);
    JoinNamesIsLetters(order);
  }

  /**
   * getTagsAsString emits exactly one tag letter per member of the set, every
   * member appears, and the letters follow the declaration order B, L, D.
   */
  lemma EncodeSpec(tags: set<RecipeTag>)
    ensures |Encode(tags)| == |tags|
    ensures forall i :: 0 <= i < |Encode(tags)| ==> IsTagLetter(Encode(tags)[i]) && TagOf(Encode(tags)[i]) in tags
    ensures forall t :: t in tags <==> Letter(t) in Encode(tags)
    ensures forall i, j :: 0 <= i < j < |Encode(tags)| ==> Ordinal(TagOf(Encode(tags)[i])) < Ordinal(TagOf(Encode(tags)[j]))
  {
    var xs := InOrder(tags, DeclarationOrder);
    var r := Encode(tags);
    InOrderSpec(tags);
    JoinNamesIsLetters(xs);
    assert |r| == |xs|;
    forall i | 0 <= i < |r| ensures IsTagLetter(r[i]) && TagOf(r[i]) == xs[i] {
      LetterNamesItsTag(xs[i]);
    }
    forall t ensures t in tags <==> Letter(t) in r {
      if t in tags {
        var i :| 0 <= i < |xs| && xs[i] == t;
        assert r[i] == Letter(t);
      }
      if Letter(t) in r {
        var i :| 0 <= i < |r| && r[i] == Letter(t);
        LetterNamesItsTag(t);
      }
    }
  }

  /**
   * setTagsAsString succeeds exactly on non-empty strings made only of tag
   * letters, in any order and with any repetition, and yields the tags those
   * letters name.
   */
  lemma DecodeSpec(s: string)
    ensures Decode(s).Success? <==> s != "" && forall i :: 0 <= i < |s| ==> IsTagLetter(s[i])
    ensures Decode(s).Success? ==> forall t :: t in Decode(s).value <==> Letter(t) in s
  {
    var pieces := SplitChars(s);
    if s == "" {
      assert ValueOf(pieces[0]).None?;
    } else {
      assert forall i :: 0 <= i < |s| ==> pieces[i] == [s[i]];
      if Decode(s).Success? {
        forall t ensures t in Decode(s).value <==> Letter(t) in s {
          if t in Decode(s).value {
            var i :| 0 <= i < |pieces| && ValueOf(pieces[i]) == Some(t);
            LetterNamesTag(s[i], t);
          }
          if Letter(t) in s {
            var i :| 0 <= i < |s| && s[i] == Letter(t);
            LetterNamesTag(s[i], t);
          }
        }
      }
    }
  }

  /** A string with a character that names no tag, or the empty string, is rejected; "" is rejected with the piece "". */
  lemma DecodeRejects(s: string)
    ensures s == "" ==> Decode(s) == Failure("")
    ensures (exists i :: 0 <= i < |s| && !IsTagLetter(s[i])) ==> Decode(s).Failure? && !IsTagLetter(Decode(s).error[0])
  {
    DecodeSpec(s);
    if Decode(s).Failure? && s != "" {
      var pieces := SplitChars(s);
      var k :| 0 <= k < |pieces| && pieces[k] == Decode(s).error && ValueOf(pieces[k]).None?;
      assert pieces[k] == [s[k]];
    }
  }

  /** The empty tag set encodes to "", yet "" does not decode back to it. */
  lemma EmptySetDoesNotRoundTrip()
    ensures Encode({}) == ""
    ensures Decode(Encode({})) == Failure("")
  {
    EncodeByMembers({});
    DecodeRejects("");
  }

  /** Every non-empty tag set survives a trip through its string form. */
  lemma RoundTrip(tags: set<RecipeTag>)
    requires tags != {}
    ensures Decode(Encode(tags)) == Success(tags)
  {
    var s := Encode(tags);
    assert s != "" && (forall i :: 0 <= i < |s| ==> IsTagLetter(s[i])) && (forall t :: t in tags <==> Letter(t) in s) by {
      EncodeSpec(tags);
      assert |tags| > 0;
    }
    DecodeSpec(s);
    assert Decode(s).Success?;
    var ts := Decode(s).value;
    assert forall t :: t in ts <==> t in tags;
    assert ts == tags;
  }

  /** Decoding looks only at which letters occur: permuting or repeating them gives the same result. */
  lemma DecodeIgnoresOrderAndRepetition(s: string, s': string)
    requires Decode(s).Success?
    requires forall c :: c in s <==> c in s'
    ensures Decode(s') == Decode(s)
  {
    DecodeSpec(s);
    DecodeSpec(s');
    assert s[0] in s';
    forall i | 0 <= i < |s'| ensures IsTagLetter(s'[i]) {
      assert s'[i] in s;
    }
    assert Decode(s').value == Decode(s).value;
  }

  /**
   * Decoding then re-encoding gives the canonical string of the set, and that
   * string decodes to the same set and re-encodes to itself.
   */
  lemma ReencodeIsCanonical(s: string)
    requires Decode(s).Success?
    ensures Decode(Encode(Decode(s).value)) == Decode(s)
    ensures Encode(Decode(Encode(Decode(s).value)).value) == Encode(Decode(s).value)
  {
    DecodeSpec(s);
    assert Letter(TagOf(s[0])) in s;
    RoundTrip(Decode(s).value);
  }
}
