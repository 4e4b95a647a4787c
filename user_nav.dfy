/**
 * The user menu in the dashboard header: the avatar initials, the name shown beside the
 * avatar and the e-mail line. The session fields are optional; an empty string counts as
 * missing, as JavaScript's truthiness does.
 */
module UserNav {
  import opened Wrappers
  import opened Text
  import opened Seqs

  /** `s.slice(0, 2)`: at most the first two characters. */
  function Take2(s: string): (r: string)
    ensures |r| == (if |s| < 2 then |s| else 2)
    ensures r <= s
  {
    if |s| < 2 then s else s[..2]
  }

  /** `s[0]` inside a template literal: the first character, or the text `undefined` for an empty string. */
  function TemplateChar(s: string): (r: string)
    ensures s != "" ==> r == [s[0]]
    ensures s == "" ==> r == "undefined"
  {
    if s == "" then "undefined" else [s[0]]
  }

  /** The avatar initials as written: both names' first letters, else two letters of the first name, else the first letters of the first two pieces of `name.split(' ')`, else `U`. */
  function NavInitialsAsWritten(firstName: Option<string>, lastName: Option<string>, name: Option<string>): (r: string)
    ensures Present(firstName) ==> 1 <= |r| <= 2
    ensures !Present(firstName) && !Present(name) ==> r == "U"
    ensures !Present(firstName) && Present(name) && |Split(name.value, ' ')| > 1 ==>
      (|r| > 2 <==> Split(name.value, ' ')[0] == "" || Split(name.value, ' ')[1] == "")
  {
    if Present(firstName) && Present(lastName) then TemplateChar(firstName.value) + TemplateChar(lastName.value)
    else if Present(firstName) then Take2(firstName.value)
    else if Present(name) then
      var names := Split(name.value, ' ');
      if |names| > 1 then TemplateChar(names[0]) + TemplateChar(names[1]) else Take2(names[0])
    else "U"
  }

  /** With two pieces, the initials as written run past two characters exactly when one of the first two pieces is empty, which happens for a leading, doubled or trailing space. */
  lemma AsWrittenTooLong(name: string)
    requires |Split(name, ' ')| > 1
    ensures var names := Split(name, ' ');
      |NavInitialsAsWritten(None, None, Some(name))| > 2 <==> names[0] == "" || names[1] == ""
  {
  }

  /** The name `A ` (a trailing space) gives the avatar text `Aundefined`. */
  lemma TrailingSpaceShowsUndefined()
    ensures NavInitialsAsWritten(None, None, Some("A ")) == "Aundefined"
  {
    var s := "A ";
    assert IndexOf(s, ' ') == 1;
    assert s[..1] == "A" && s[2..] == "";
    assert Split("", ' ') == [""];
    assert Split(s, ' ') == ["A", ""];
  }

  predicate IsWord(w: string) {
    w != ""
  }

  /** The words of a name: the pieces between spaces, without the empty ones. */
  function Words(name: string): (ws: seq<string>)
    ensures forall k :: 0 <= k < |ws| ==> ws[k] != "" && ' ' !in ws[k]
    ensures IsSubsequence(ws, Split(name, ' '))
  {
    FilterIsSubsequence(Split(name, ' '), IsWord);
    var ws := Filter(Split(name, ' '), IsWord);
    assert forall k :: 0 <= k < |ws| ==> ws[k] in ws;
    ws
  }

  /** The avatar initials with the name split into its non-empty words; a name of only spaces falls back to `U`. */
  function NavInitials(firstName: Option<string>, lastName: Option<string>, name: Option<string>): (r: string)
    ensures 1 <= |r| <= 2
    ensures Present(firstName) && Present(lastName) ==> r == [firstName.value[0], lastName.value[0]]
    ensures Present(firstName) && !Present(lastName) ==> r <= firstName.value
    ensures !Present(firstName) && Present(name) && |Words(name.value)| > 1 ==>
              r == [Words(name.value)[0][0], Words(name.value)[1][0]]
    ensures !Present(firstName) && Present(name) && |Words(name.value)| == 1 ==> r <= Words(name.value)[0]
    ensures r == "U" <== !Present(firstName) && (!Present(name) || Words(name.value) == [])
  {
    if Present(firstName) && Present(lastName) then [firstName.value[0], lastName.value[0]]
    else if Present(firstName) then Take2(firstName.value)
    else if Present(name) then
      var words := Words(name.value);
      if |words| > 1 then [words[0][0], words[1][0]]
      else if |words| == 1 then Take2(words[0])
      else "U"
    else "U"
  }

  /** For a name without leading, trailing or doubled spaces the two definitions agree. */
  lemma AgreesOnSingleSpaced(firstName: Option<string>, lastName: Option<string>, name: Option<string>)
    requires name.Some? ==> forall k :: 0 <= k < |Split(name.value, ' ')| ==> Split(name.value, ' ')[k] != ""
    ensures NavInitialsAsWritten(firstName, lastName, name) == NavInitials(firstName, lastName, name)
  {
    if Present(firstName) && Present(lastName) {
      assert TemplateChar(firstName.value) + TemplateChar(lastName.value) == [firstName.value[0], lastName.value[0]];
    } else if !Present(firstName) && Present(name) {
      var names := Split(name.value, ' ');
      forall x | x in names
        ensures IsWord(x)
      {
        var k :| 0 <= k < |names| && names[k] == x;
      }
      FilterAll(names, IsWord);
      assert Words(name.value) == names;
      if |names| > 1 {
        assert TemplateChar(names[0]) + TemplateChar(names[1]) == [names[0][0], names[1][0]];
      }
    }
  }

  /** `firstName || name || 'User'`: the name beside the avatar is never empty. */
  function DisplayName(firstName: Option<string>, name: Option<string>): (r: string)
    ensures r != ""
    ensures Present(firstName) ==> r == firstName.value
    ensures !Present(firstName) && Present(name) ==> r == name.value
    ensures !Present(firstName) && !Present(name) ==> r == "User"
  {
    if Present(firstName) then firstName.value
    else if Present(name) then name.value
    else "User"
  }

  /** `email || ''`. */
  function ShownEmail(email: Option<string>): (r: string)
    ensures Present(email) ==> r == email.value
    ensures !Present(email) ==> r == ""
  {
    email.GetOr("")
  }
}
