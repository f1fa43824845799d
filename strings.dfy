/** `utils/string.ts`: capitalisation helpers, on the ASCII case model. */
module StringUtils {
  import opened Base
  import opened Text

  /** `capitalizeFirstChar`: the first character upper-cased, the rest as given. */
  function CapitalizeFirstChar(v: string): (r: string)
    ensures |r| == |v|
    ensures v != [] ==> r[0] == UpperChar(v[0]) && r[1..] == v[1..]
  {
    if v == [] then v else [UpperChar(v[0])] + v[1..]
  }

  /** Upper-casing is idempotent, so capitalising twice changes nothing more. */
  lemma CapitalizeFirstCharIdempotent(v: string)
    ensures CapitalizeFirstChar(CapitalizeFirstChar(v)) == CapitalizeFirstChar(v)
  {
  }

  /** The character-by-character reading of `capitalizeWords`: a character is
      upper-cased when it starts the string (`atStart`) or follows a space. */
  function CapFrom(s: string, atStart: bool): (r: string)
    ensures |r| == |s|
    ensures forall i :: 0 <= i < |s| ==>
      r[i] == if (i == 0 && atStart) || (i > 0 && s[i - 1] == ' ') then UpperChar(s[i]) else s[i]
  {
    if s == [] then []
    else [if atStart then UpperChar(s[0]) else s[0]] + CapFrom(s[1..], s[0] == ' ')
  }

  /** Prepending a character to the first part prepends it to the join. */
  lemma {:induction false} JoinConsFirst(c: char, a: string, rest: seq<string>, sep: string)
    ensures Join([[c] + a] + rest, sep) == [c] + Join([a] + rest, sep)
  {
    if rest != [] {
      assert ([[c] + a] + rest)[1..] == rest;
      assert ([a] + rest)[1..] == rest;
    }
  }

  /** Splitting on spaces, capitalising every part (or every part but the
      first) and joining again is `CapFrom` with `atStart` true (or false). */
  lemma {:induction false} CapitalizeWordsIsCapFrom(s: string)
    ensures Join(Map(Split(s, ' '), CapitalizeFirstChar), " ") == CapFrom(s, true)
    ensures var p := Split(s, ' ');
      Join([p[0]] + Map(p[1..], CapitalizeFirstChar), " ") == CapFrom(s, false)
  {
    if s != [] {
      CapitalizeWordsIsCapFrom(s[1..]);
      if s[0] == ' ' {
        CapLeadingSpace(s);
      } else {
        CapLeadingChar(s);
        CapLeadingCharRest(s);
      }
    }
  }

  /** The inductive step of `CapitalizeWordsIsCapFrom` for a leading space. */
  lemma CapLeadingSpace(s: string)
    requires s != [] && s[0] == ' '
    requires Join(Map(Split(s[1..], ' '), CapitalizeFirstChar), " ") == CapFrom(s[1..], true)
    ensures Join(Map(Split(s, ' '), CapitalizeFirstChar), " ") == CapFrom(s, true)
    ensures var p := Split(s, ' ');
      Join([p[0]] + Map(p[1..], CapitalizeFirstChar), " ") == CapFrom(s, false)
  {
    var rest := Split(s[1..], ' ');
    var p := Split(s, ' ');
    var m := Map(rest, CapitalizeFirstChar);
    assert p == [[]] + rest;
    assert Map(p, CapitalizeFirstChar) == [[]] + m;
    assert p[1..] == rest;
    assert ([[]] + m)[1..] == m;
    assert CapFrom(s, true) == [' '] + CapFrom(s[1..], true);
    assert CapFrom(s, false) == [' '] + CapFrom(s[1..], true);
  }

  /** The inductive step of `CapitalizeWordsIsCapFrom` for a leading letter,
      every word capitalised. */
  lemma CapLeadingChar(s: string)
    requires s != [] && s[0] != ' '
    requires var rest := Split(s[1..], ' ');
      Join([rest[0]] + Map(rest[1..], CapitalizeFirstChar), " ") == CapFrom(s[1..], false)
    ensures Join(Map(Split(s, ' '), CapitalizeFirstChar), " ") == CapFrom(s, true)
  {
    var rest := Split(s[1..], ' ');
    var tail := Map(rest[1..], CapitalizeFirstChar);
    var first := [s[0]] + rest[0];
    calc {
      Join(Map(Split(s, ' '), CapitalizeFirstChar), " ");
      { assert Split(s, ' ') == [first] + rest[1..]; }
      Join(Map([first] + rest[1..], CapitalizeFirstChar), " ");
      { MapConcat([first], rest[1..], CapitalizeFirstChar);
        assert first[1..] == rest[0]; }
      Join([[UpperChar(s[0])] + rest[0]] + tail, " ");
      { JoinConsFirst(UpperChar(s[0]), rest[0], tail, " "); }
      [UpperChar(s[0])] + Join([rest[0]] + tail, " ");
      [UpperChar(s[0])] + CapFrom(s[1..], false);
      CapFrom(s, true);
    }
  }

  /** The same step with the first word left as it is. */
  lemma CapLeadingCharRest(s: string)
    requires s != [] && s[0] != ' '
    requires var rest := Split(s[1..], ' ');
      Join([rest[0]] + Map(rest[1..], CapitalizeFirstChar), " ") == CapFrom(s[1..], false)
    ensures var p := Split(s, ' ');
      Join([p[0]] + Map(p[1..], CapitalizeFirstChar), " ") == CapFrom(s, false)
  {
    var rest := Split(s[1..], ' ');
    var tail := Map(rest[1..], CapitalizeFirstChar);
    var p := Split(s, ' ');
    assert p == [[s[0]] + rest[0]] + rest[1..];
    assert p[1..] == rest[1..];
    JoinConsFirst(s[0], rest[0], tail, " ");
    assert CapFrom(s, false) == [s[0]] + CapFrom(s[1..], false);
  }

  /** `capitalizeWords`: every space-separated word gets `capitalizeFirstChar`.
      Equivalently, exactly the characters at the start or after a space are
      upper-cased, so the spaces stay where they were. */
  function CapitalizeWords(v: string): (r: string)
    ensures |r| == |v|
    ensures forall i :: 0 <= i < |v| ==>
      r[i] == if i == 0 || v[i - 1] == ' ' then UpperChar(v[i]) else v[i]
  {
    if v == [] then v
    else
      CapitalizeWordsIsCapFrom(v);
      Join(Map(Split(v, ' '), CapitalizeFirstChar), " ")
  }

  /** The spaces of the result are exactly those of the input. */
  lemma CapitalizeWordsKeepsSpaces(v: string)
    ensures forall i :: 0 <= i < |v| ==> (CapitalizeWords(v)[i] == ' ' <==> v[i] == ' ')
  {
    var r := CapitalizeWords(v);
    forall i | 0 <= i < |v|
      ensures r[i] == ' ' <==> v[i] == ' '
    {
      assert r[i] == if i == 0 || v[i - 1] == ' ' then UpperChar(v[i]) else v[i];
      assert UpperChar(v[i]) == ' ' <==> v[i] == ' ';
    }
  }

  /** On a single word, `capitalizeWords` is `capitalizeFirstChar`. */
  lemma OneWordCapitalize(v: string)
    requires ' ' !in v
    ensures CapitalizeWords(v) == CapitalizeFirstChar(v)
  {
    var r := CapitalizeWords(v);
    if v != [] {
      forall i | 1 <= i < |v|
        ensures r[i] == v[i]
      {
        assert v[i - 1] in v;
      }
    }
  }

  /** `toTitleCase`: the first character upper-cased, the rest lower-cased. */
  function ToTitleCase(v: string): (r: string)
    ensures |r| == |v|
    ensures v != [] ==> r[0] == UpperChar(v[0])
    ensures forall i :: 1 <= i < |v| ==> r[i] == LowerChar(v[i])
  {
    if v == [] then v else [UpperChar(v[0])] + Lower(v[1..])
  }

  /** Title case is the capitalised form of the lower-cased string. */
  lemma TitleCaseIsCapitalizedLower(v: string)
    ensures ToTitleCase(v) == CapitalizeFirstChar(Lower(v))
  {
  }

  /** Title-casing a title-cased string changes nothing. */
  lemma TitleCaseIdempotent(v: string)
    ensures ToTitleCase(ToTitleCase(v)) == ToTitleCase(v)
  {
  }
}
