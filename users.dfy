/** `UserSelect` (the assignee picker) and `UserAvatar` (initials and avatar
    content). */
module Users {
  import opened Base
  import opened Text
  import opened Types

  // ---------------------------------------------------------------------
  // UserSelect
  // ---------------------------------------------------------------------

  /** The picker's `filter` predicate: admins and agents. */
  predicate IsStaff(u: User) {
    u.role == ADMIN_ROLE || u.role == AGENT_ROLE
  }

  function StaffFilter(): User -> bool {
    (u: User) => IsStaff(u)
  }

  /** `assignableUsers`. */
  function AssignableUsers(users: seq<User>): (r: seq<User>)
    ensures |r| <= |users|
    ensures forall i :: 0 <= i < |r| ==> r[i] in users && IsStaff(r[i])
    ensures forall i :: 0 <= i < |users| && IsStaff(users[i]) ==> users[i] in r
  {
    Filter(users, StaffFilter())
  }

  /** The assignable users are the staff members, in the order given. */
  lemma AssignableKeepsOrder(users: seq<User>)
    ensures Subseq(AssignableUsers(users), users)
    ensures (forall i :: 0 <= i < |users| ==> IsStaff(users[i])) ==> AssignableUsers(users) == users
    ensures (forall i :: 0 <= i < |users| ==> !IsStaff(users[i])) ==> AssignableUsers(users) == []
  {
    FilterSubseq(users, StaffFilter());
    if forall i :: 0 <= i < |users| ==> IsStaff(users[i]) {
      FilterKeepsAll(users, StaffFilter());
    }
    if forall i :: 0 <= i < |users| ==> !IsStaff(users[i]) {
      FilterKeepsNone(users, StaffFilter());
    }
  }

  /** What `renderValue` shows for the field's value. */
  datatype SelectedView = EmptyText | NothingShown | UserChip(user: User)

  /** `renderValue(selected)`: "" for a falsy value, nothing for an id that no
      assignable user has, else the first assignable user with that id. */
  function RenderValue(selected: Option<string>, users: seq<User>): (r: SelectedView)
    ensures r == EmptyText <==> selected.None? || selected.value == ""
    ensures r.UserChip? ==> IsStaff(r.user) && r.user in users && r.user.id == selected.value
    ensures r == NothingShown <==> (selected.Some? && selected.value != ""
      && forall i :: 0 <= i < |users| ==> !(IsStaff(users[i]) && users[i].id == selected.value))
    ensures r.UserChip? ==> var staff := AssignableUsers(users);
      exists j :: 0 <= j < |staff| && staff[j] == r.user
        && forall m :: 0 <= m < j ==> staff[m].id != selected.value
  {
    if selected.None? || selected.value == "" then EmptyText
    else
      match Find(AssignableUsers(users), UserIdIs(selected.value))
      case Some(u) => UserChip(u)
      case None => NothingShown
  }

  /** The value the clear button hands to the field. */
  const CLEARED: string := ""

  /** Clearing the selection shows the empty text again. */
  lemma ClearShowsEmpty(users: seq<User>)
    ensures RenderValue(Some(CLEARED), users) == EmptyText
  {
  }

  /** An entry of the picker's menu. */
  datatype MenuOption = Placeholder | UserOption(user: User)

  /** The menu: the placeholder entry with value "", then every assignable
      user. */
  function MenuOptions(users: seq<User>): (r: seq<MenuOption>)
    ensures |r| == |AssignableUsers(users)| + 1
    ensures r[0] == Placeholder
    ensures forall i :: 1 <= i < |r| ==> r[i] == UserOption(AssignableUsers(users)[i - 1])
  {
    [Placeholder] + Map(AssignableUsers(users), (u: User) => UserOption(u))
  }

  /** The value a menu entry sets. */
  function OptionValue(o: MenuOption): string {
    match o
    case Placeholder => ""
    case UserOption(u) => u.id
  }

  /** Choosing a menu entry renders it back: the placeholder shows the empty
      text, and a user with a non-empty id that is the only assignable user
      with that id shows that user. */
  lemma {:induction false} ChosenOptionRendersBack(users: seq<User>, k: nat)
    requires k < |MenuOptions(users)|
    requires var staff := AssignableUsers(users);
      k > 0 ==> (staff[k - 1].id != ""
        && forall j :: 0 <= j < |staff| && j != k - 1 ==> staff[j].id != staff[k - 1].id)
    ensures var o := MenuOptions(users)[k];
      RenderValue(Some(OptionValue(o)), users)
      == if o.Placeholder? then EmptyText else UserChip(o.user)
  {
    if k > 0 {
      var staff := AssignableUsers(users);
      FindIsFirst(staff, UserIdIs(staff[k - 1].id), k - 1);
    }
  }

  // ---------------------------------------------------------------------
  // UserAvatar
  // ---------------------------------------------------------------------

  /** `word.charAt(0)`: the first character, or "" for an empty word. */
  function FirstChar(word: string): (r: string)
    ensures word == [] ==> r == []
    ensures word != [] ==> r == [word[0]]
  {
    if word == [] then [] else [word[0]]
  }

  /** Reference definition: the characters that begin a space-separated word,
      in order; `atStart` says whether the first character begins one. */
  function WordStarts(s: string, atStart: bool): (r: string)
    ensures |r| <= |s|
    ensures ' ' !in r
  {
    if s == [] then []
    else (if atStart && s[0] != ' ' then [s[0]] else []) + WordStarts(s[1..], s[0] == ' ')
  }

  /** Joining with "" after one part is concatenation. */
  lemma {:induction false} JoinNoSep(a: string, rest: seq<string>)
    ensures Join([a] + rest, "") == a + Join(rest, "")
  {
    if rest != [] {
      assert ([a] + rest)[1..] == rest;
    }
  }

  /** `name.split(" ").map(w => w.charAt(0)).join("")` is `WordStarts`, and so
      is the same chain without the first word when the first character does
      not begin a word. */
  lemma {:induction false} InitialCharsAreWordStarts(s: string)
    ensures Join(Map(Split(s, ' '), FirstChar), "") == WordStarts(s, true)
    ensures Join(Map(Split(s, ' ')[1..], FirstChar), "") == WordStarts(s, false)
  {
    if s != [] {
      InitialCharsAreWordStarts(s[1..]);
      if s[0] == ' ' {
        InitialsLeadingSpace(s);
      } else {
        InitialsLeadingChar(s);
      }
    }
  }

  /** The inductive step of `InitialCharsAreWordStarts` for a leading space:
      it starts an empty word, which contributes nothing. */
  lemma InitialsLeadingSpace(s: string)
    requires s != [] && s[0] == ' '
    requires Join(Map(Split(s[1..], ' '), FirstChar), "") == WordStarts(s[1..], true)
    ensures Join(Map(Split(s, ' '), FirstChar), "") == WordStarts(s, true)
    ensures Join(Map(Split(s, ' ')[1..], FirstChar), "") == WordStarts(s, false)
  {
    var rest := Split(s[1..], ' ');
    var m := Map(rest, FirstChar);
    assert Split(s, ' ') == [[]] + rest;
    calc {
      Join(Map(Split(s, ' '), FirstChar), "");
      { MapConcat([[]], rest, FirstChar); }
      Join([[]] + m, "");
      { JoinNoSep([], m); }
      WordStarts(s[1..], true);
      WordStarts(s, true);
    }
    assert Split(s, ' ')[1..] == rest;
  }

  /** The inductive step of `InitialCharsAreWordStarts` for a leading
      non-space: it begins the first word. */
  lemma InitialsLeadingChar(s: string)
    requires s != [] && s[0] != ' '
    requires Join(Map(Split(s[1..], ' ')[1..], FirstChar), "") == WordStarts(s[1..], false)
    ensures Join(Map(Split(s, ' '), FirstChar), "") == WordStarts(s, true)
    ensures Join(Map(Split(s, ' ')[1..], FirstChar), "") == WordStarts(s, false)
  {
    var rest := Split(s[1..], ' ');
    var m := Map(rest[1..], FirstChar);
    var first := [s[0]] + rest[0];
    assert Split(s, ' ') == [first] + rest[1..];
    calc {
      Join(Map(Split(s, ' '), FirstChar), "");
      { MapConcat([first], rest[1..], FirstChar); }
      Join([[s[0]]] + m, "");
      { JoinNoSep([s[0]], m); }
      [s[0]] + WordStarts(s[1..], false);
      WordStarts(s, true);
    }
    assert Split(s, ' ')[1..] == rest[1..];
  }

  /** `getInitials(name)`: the first character of each space-separated word,
      upper-cased, at most two of them. */
  function Initials(name: string): (r: string)
    ensures r == Prefix(Upper(WordStarts(name, true)), 2)
    ensures |r| <= 2
    ensures name == "" ==> r == ""
  {
    InitialCharsAreWordStarts(name);
    Prefix(Upper(Join(Map(Split(name, ' '), FirstChar), "")), 2)
  }

  /** Two words give the upper-cased first letter of each. */
  lemma {:induction false} TwoWordInitials(first: string, last: string)
    requires first != [] && last != []
    requires ' ' !in first && ' ' !in last
    ensures Initials(first + " " + last) == [UpperChar(first[0]), UpperChar(last[0])]
  {
    var s := first + " " + last;
    assert first[|first| - 1] in first;
    calc {
      WordStarts(s, true);
      { assert s == first + (" " + last); }
      WordStarts(first + (" " + last), true);
      { WordStartsConcat(first, " " + last, true); }
      WordStarts(first, true) + WordStarts(" " + last, false);
      { WordStartsOneWord(first, true); }
      [first[0]] + WordStarts(" " + last, false);
      { WordStartsUnfold(" " + last, false); assert (" " + last)[1..] == last; }
      [first[0]] + WordStarts(last, true);
      { WordStartsOneWord(last, true); }
      [first[0], last[0]];
    }
  }

  /** A word without spaces contributes its first character only. */
  lemma {:induction false} WordStartsOneWord(w: string, atStart: bool)
    requires ' ' !in w
    ensures WordStarts(w, atStart) == if atStart && w != [] then [w[0]] else []
  {
    if w != [] {
      assert ' ' !in w[1..] by {
        forall k | 0 <= k < |w[1..]| ensures w[1..][k] != ' ' {
          assert w[1..][k] == w[k + 1];
        }
      }
      WordStartsOneWord(w[1..], false);
    }
  }

  /** `WordStarts` over a concatenation: the second part starts a word iff the
      first part ends with a space (or is empty and `atStart`). */
  lemma {:induction false} WordStartsConcat(a: string, b: string, atStart: bool)
    requires a != []
    ensures WordStarts(a + b, atStart) == WordStarts(a, atStart) + WordStarts(b, a[|a| - 1] == ' ')
  {
    if |a| == 1 {
      WordStartsConcatOne(a, b, atStart);
    } else {
      var head := if atStart && a[0] != ' ' then [a[0]] else [];
      calc {
        WordStarts(a + b, atStart);
        { WordStartsUnfold(a + b, atStart); assert (a + b)[0] == a[0] && (a + b)[1..] == a[1..] + b; }
        head + WordStarts(a[1..] + b, a[0] == ' ');
        { WordStartsConcat(a[1..], b, a[0] == ' '); assert a[1..][|a[1..]| - 1] == a[|a| - 1]; }
        head + (WordStarts(a[1..], a[0] == ' ') + WordStarts(b, a[|a| - 1] == ' '));
        { WordStartsUnfold(a, atStart); }
        WordStarts(a, atStart) + WordStarts(b, a[|a| - 1] == ' ');
      }
    }
  }

  /** One step of `WordStarts`. */
  lemma WordStartsUnfold(s: string, atStart: bool)
    requires s != []
    ensures WordStarts(s, atStart) == (if atStart && s[0] != ' ' then [s[0]] else []) + WordStarts(s[1..], s[0] == ' ')
  {
  }

  /** `WordStartsConcat` for a one-character first part. */
  lemma WordStartsConcatOne(a: string, b: string, atStart: bool)
    requires |a| == 1
    ensures WordStarts(a + b, atStart) == WordStarts(a, atStart) + WordStarts(b, a[0] == ' ')
  {
    WordStartsUnfold(a + b, atStart);
    WordStartsUnfold(a, atStart);
    assert (a + b)[0] == a[0] && (a + b)[1..] == b && a[1..] == [];
  }

  /** What the avatar renders as its child. */
  datatype AvatarContent = NoChild | CustomNode(node: nat) | InitialsText(text: string)

  /** `renderAvatarContent`: nothing for a non-empty image URL (the image is
      the `src`), the custom node as given, else the initials. An empty URL
      is falsy and falls back to the initials. */
  function AvatarChild(u: User): (r: AvatarContent)
    ensures r.NoChild? <==> u.avatar.UrlAvatar? && u.avatar.url != ""
    ensures u.avatar.NodeAvatar? ==> r == CustomNode(u.avatar.node)
    ensures r.InitialsText? <==> u.avatar.NoAvatar? || u.avatar == UrlAvatar("")
    ensures r.InitialsText? ==> r.text == Initials(u.name)
  {
    match u.avatar
    case UrlAvatar(url) => if url != "" then NoChild else InitialsText(Initials(u.name))
    case NodeAvatar(n) => CustomNode(n)
    case NoAvatar => InitialsText(Initials(u.name))
  }

  /** The `src` prop: the avatar when it is a string, even an empty one. */
  function AvatarSrc(u: User): (r: Option<string>)
    ensures r.Some? <==> u.avatar.UrlAvatar?
    ensures r.Some? ==> r.value == u.avatar.url
  {
    if u.avatar.UrlAvatar? then Some(u.avatar.url) else None
  }

  /** Exactly one of a non-empty image, a custom node or the initials fills the
      avatar; with an empty URL the image is requested and the initials are
      also shown. */
  lemma AvatarShowsOneThing(u: User)
    ensures (AvatarSrc(u).Some? && AvatarSrc(u).value != "") <==> AvatarChild(u).NoChild?
    ensures AvatarSrc(u) == Some("") ==> AvatarChild(u) == InitialsText(Initials(u.name))
  {
  }
}
