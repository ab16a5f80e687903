/**
 * The user menu at the foot of the sidebar (`NavUser`): the signed-in
 * user's name and e-mail with their fallbacks, the initials drawn when
 * there is no picture, and the "Signed in with …" provider line.
 */
module NavUser {
  import opened Wrappers
  import opened Text

  // ---------------------------------------------------------------------
  // Initials
  // ---------------------------------------------------------------------

  /**
   * `parts.map(n => n[0]).join('')`: the first character of each part; an
   * empty part gives `undefined`, which `join` writes as nothing.
   */
  function FirstChars(parts: seq<string>): (r: string)
    ensures |r| <= |parts|
  {
    if parts == [] then ""
    else (if parts[0] == "" then "" else [parts[0][0]]) + FirstChars(parts[1..])
  }

  /** `getInitials`: the word initials, upper-cased, at most two. */
  function GetInitials(name: string): (r: string)
    ensures |r| <= 2
  {
    Take(Upper(FirstChars(Split(name, ' '))), 2)
  }

  /**
   * The characters of `s` that begin a word: not a space, and first or
   * after a space (`afterSpace` says whether the character before `s`
   * was a space).
   */
  function WordStarts(s: string, afterSpace: bool): (r: string)
    ensures |r| <= |s|
  {
    if s == [] then ""
    else (if s[0] != ' ' && afterSpace then [s[0]] else "") + WordStarts(s[1..], s[0] == ' ')
  }

  /**
   * Splitting at spaces and taking first characters picks exactly the
   * characters that begin a word; the parts after the first pick those
   * that begin a word after a space.
   */
  lemma {:induction false} FirstCharsAreWordStarts(s: string)
    ensures FirstChars(Split(s, ' ')) == WordStarts(s, true)
    ensures FirstChars(Split(s, ' ')[1..]) == WordStarts(s, false)
    decreases |s|
  {
    if s != [] {
      var rest := Split(s[1..], ' ');
      FirstCharsAreWordStarts(s[1..]);
      if s[0] == ' ' {
        assert Split(s, ' ') == [""] + rest;
        assert ([""] + rest)[1..] == rest;
      } else {
        var parts := Split(s, ' ');
        assert parts == [[s[0]] + rest[0]] + rest[1..];
        assert parts[1..] == rest[1..];
        assert FirstChars(parts) == [s[0]] + FirstChars(rest[1..]);
      }
    }
  }

  /** The initials are the first two word-beginning characters, upper-cased. */
  lemma InitialsAreWordStarts(name: string)
    ensures GetInitials(name) == Take(Upper(WordStarts(name, true)), 2)
  {
    FirstCharsAreWordStarts(name);
  }

  /** A string of spaces begins no word. */
  lemma {:induction false} SpacesBeginNoWord(s: string, afterSpace: bool)
    requires forall i :: 0 <= i < |s| ==> s[i] == ' '
    ensures WordStarts(s, afterSpace) == ""
    decreases |s|
  {
    if s != [] {
      SpacesBeginNoWord(s[1..], true);
    }
  }

  /** The first character after leading spaces begins a word. */
  lemma {:induction false} FirstNonSpaceBeginsWord(s: string, j: int)
    requires 0 <= j < |s| && s[j] != ' '
    requires forall i :: 0 <= i < j ==> s[i] == ' '
    ensures WordStarts(s, true) != ""
    decreases j
  {
    if j > 0 {
      FirstNonSpaceBeginsWord(s[1..], j - 1);
    }
  }

  /** A name has no initials exactly when it is all spaces; the empty name included. */
  lemma NoInitialsIffAllSpaces(name: string)
    ensures GetInitials(name) == "" <==> forall i :: 0 <= i < |name| ==> name[i] == ' '
  {
    InitialsAreWordStarts(name);
    if forall i :: 0 <= i < |name| ==> name[i] == ' ' {
      SpacesBeginNoWord(name, true);
    } else {
      var j := FirstNonSpace(name);
      FirstNonSpaceBeginsWord(name, j);
    }
  }

  /** The index of the first character that is not a space. */
  lemma FirstNonSpace(s: string) returns (j: int)
    requires exists i :: 0 <= i < |s| && s[i] != ' '
    ensures 0 <= j < |s| && s[j] != ' '
    ensures forall i :: 0 <= i < j ==> s[i] == ' '
  {
    j := 0;
    while s[j] == ' '
      invariant 0 <= j < |s|
      invariant forall i :: 0 <= i < j ==> s[i] == ' '
      invariant exists i :: j <= i < |s| && s[i] != ' '
      decreases |s| - j
    {
      j := j + 1;
    }
  }

  /** Leading and repeated spaces add nothing, and a third word is cut: " a  b c" gives "AB". */
  lemma InitialsSkipEmptyParts()
    ensures GetInitials(" a  b c") == "AB"
  {
    InitialsAreWordStarts(" a  b c");
    WordStartsOfExample();
    var u := Upper("abc");
    assert u[0] == 'A' && u[1] == 'B';
    assert u[..2] == "AB";
  }

  /** The word-beginning characters of " a  b c", one step at a time. */
  lemma WordStartsOfExample()
    ensures WordStarts(" a  b c", true) == "abc"
  {
    assert WordStarts("c", true) == "c";
    assert WordStarts(" c", false) == "c";
    assert WordStarts("b c", true) == "bc";
    assert WordStarts(" b c", true) == "bc";
    assert WordStarts("  b c", false) == "bc";
    assert WordStarts("a  b c", true) == "abc";
  }

  /**
   * The avatar's fallback text: the initials of the name, where the
   * sidebar button and the account dialog first replace an empty name by
   * "U" (`substitute`) and the menu header does not.
   */
  function AvatarText(name: string, substitute: bool): (r: string)
    ensures |r| <= 2
  {
    GetInitials(if substitute then OrDefault(Some(name), "U") else name)
  }

  /**
   * With the substitution the fallback is blank only for a name of spaces;
   * without it the empty name is blank too.
   */
  lemma AvatarTextBlankIff(name: string)
    ensures AvatarText(name, true) == "" <==> name != "" && forall i :: 0 <= i < |name| ==> name[i] == ' '
    ensures AvatarText(name, false) == "" <==> forall i :: 0 <= i < |name| ==> name[i] == ' '
    ensures AvatarText("", true) == "U" && AvatarText("", false) == ""
  {
    NoInitialsIffAllSpaces(name);
    NoInitialsIffAllSpaces("U");
    InitialsAreWordStarts("U");
    InitialsAreWordStarts("");
  }

  // ---------------------------------------------------------------------
  // The user's fields
  // ---------------------------------------------------------------------

  /** What the session says about its user; any field may be missing. */
  datatype SessionUser = SessionUser(name: Option<string>, email: Option<string>,
                                     image: Option<string>, provider: Option<string>)

  /** The `user` object the menu draws from. */
  datatype UserView = UserView(name: string, email: string, avatar: Option<string>, provider: Option<string>)

  /** `user`: empty name and e-mail when the session lacks them; picture and provider as they are. */
  function ViewOf(session: Option<SessionUser>): (u: UserView)
    ensures session.None? ==> u == UserView("", "", None, None)
    ensures session.Some? ==> (Truthy(session.value.name) <==> u.name != "")
                              && (Truthy(session.value.email) <==> u.email != "")
    ensures session.Some? && u.name != "" ==> u.name == session.value.name.value
    ensures session.Some? && u.email != "" ==> u.email == session.value.email.value
    ensures session.Some? ==> u.avatar == session.value.image && u.provider == session.value.provider
  {
    if session.None? then UserView("", "", None, None)
    else
      var s := session.value;
      UserView(OrDefault(s.name, ""), OrDefault(s.email, ""), s.image, s.provider)
  }

  /** The picture is drawn when there is a non-empty one; otherwise the initials. */
  predicate ShowsPicture(u: UserView) {
    Truthy(u.avatar)
  }

  /** The provider line: the provider with its first character upper-cased, when there is one. */
  function ProviderLabel(provider: Option<string>): (r: Option<string>)
    ensures r.None? <==> !Truthy(provider)
    ensures r.Some? ==> |r.value| == |provider.value| && r.value[0] == UpperChar(provider.value[0])
                        && r.value[1..] == provider.value[1..]
  {
    if Truthy(provider) then Some([UpperChar(provider.value[0])] + provider.value[1..]) else None
  }

  /** "google" reads "Google"; a label already capitalised stays as it is. */
  lemma ProviderLabelCapitalises(provider: string)
    requires provider != ""
    ensures ProviderLabel(Some("google")) == Some("Google")
    ensures ProviderLabel(ProviderLabel(Some(provider))) == ProviderLabel(Some(provider))
  {
    var once := ProviderLabel(Some(provider)).value;
    assert [UpperChar(once[0])] + once[1..] == once;
    assert ProviderLabel(Some("google")).value == "Google";
  }
}
