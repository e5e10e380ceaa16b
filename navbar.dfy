/** The initials shown in the navigation bar for the signed-in user. */
module Navbar {
  import opened Wrappers
  import opened Js

  /** `parts.map(n => n[0]).join('')`: an empty part gives `undefined`, which
      `join` writes as nothing. */
  function FirstChars(parts: seq<string>): (r: string)
    ensures |r| <= |parts|
  {
    if parts == [] then ""
    else (if parts[0] == "" then "" else [parts[0][0]]) + FirstChars(parts[1..])
  }

  /** `user?.name?.split(' ').map(n => n[0]).join('').toUpperCase() || 'U'`;
      `name` is None when there is no user or the user has no name. */
  function GetInitials(name: Option<string>): (r: string)
    ensures r != ""
    ensures name.None? ==> r == "U"
    ensures name.Some? ==> |r| <= |Split(name.value, ' ')| || r == "U"
  {
    if name.None? then "U"
    else
      var initials := Upper(FirstChars(Split(name.value, ' ')));
      if initials != "" then initials else "U"
  }

  /** The characters of `s` that begin a word: not a space, and first or right
      after a space (`atStart` says whether the previous character was one). */
  function WordStarts(s: string, atStart: bool): string
  {
    if s == [] then ""
    else (if atStart && s[0] != ' ' then [s[0]] else []) + WordStarts(s[1..], s[0] == ' ')
  }

  lemma FirstCharsCons(p: string, rest: seq<string>)
    ensures FirstChars([p] + rest) == (if p == "" then "" else [p[0]]) + FirstChars(rest)
  {
    assert ([p] + rest)[1..] == rest;
  }

  /** The first characters of the parts of a split are the word starts; the
      parts after the first start right after a space. */
  lemma {:induction false} FirstCharsOfSplit(s: string)
    ensures FirstChars(Split(s, ' ')) == WordStarts(s, true)
    ensures FirstChars(Split(s, ' ')[1..]) == WordStarts(s, false)
  {
    if s != [] {
      var rest := Split(s[1..], ' ');
      FirstCharsOfSplit(s[1..]);
      if s[0] == ' ' {
        assert Split(s, ' ') == [""] + rest;
        FirstCharsCons("", rest);
        assert Split(s, ' ')[1..] == rest;
      } else {
        var head := [s[0]] + rest[0];
        assert Split(s, ' ') == [head] + rest[1..];
        FirstCharsCons(head, rest[1..]);
        assert Split(s, ' ')[1..] == rest[1..];
      }
    }
  }

  /** There are no word starts exactly when every character is a space, given
      that the string starts a word. */
  lemma {:induction false} NoWordStarts(s: string)
    ensures WordStarts(s, true) == "" <==> forall k | 0 <= k < |s| :: s[k] == ' '
  {
    if s != [] {
      if s[0] == ' ' {
        NoWordStarts(s[1..]);
        assert forall k | 1 <= k < |s| :: s[k] == s[1..][k - 1];
      }
    }
  }

  /** The initials are the capitalised word starts of the name, in order, and
      'U' when there is no name or the name has only spaces. */
  lemma GetInitialsMeaning(name: Option<string>)
    ensures name.Some? && (exists k | 0 <= k < |name.value| :: name.value[k] != ' ') ==>
              GetInitials(name) == Upper(WordStarts(name.value, true))
    ensures name.Some? && (forall k | 0 <= k < |name.value| :: name.value[k] == ' ') ==>
              GetInitials(name) == "U"
  {
    if name.Some? {
      FirstCharsOfSplit(name.value);
      NoWordStarts(name.value);
    }
  }

  lemma InitialsExamples()
    ensures GetInitials(Some("ana b")) == "AB"
    ensures GetInitials(Some("  ")) == "U"
  {
    var n := "ana b";
    assert n[0] != ' ';
    GetInitialsMeaning(Some(n));
    assert WordStarts("b", true) == "b" by { assert "b"[1..] == ""; }
    assert WordStarts(" b", false) == "b" by { assert " b"[1..] == "b"; }
    assert WordStarts("a b", false) == "b" by { assert "a b"[1..] == " b"; }
    assert WordStarts("na b", false) == "b" by { assert "na b"[1..] == "a b"; }
    assert WordStarts(n, true) == "ab" by { assert n[1..] == "na b"; }
    assert Upper("ab") == "AB";
    GetInitialsMeaning(Some("  "));
  }
}
