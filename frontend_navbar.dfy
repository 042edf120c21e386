/**
 * The navigation bar of frontend/src/components/Navbar.jsx: the avatar's
 * initials, and the two-step logout (a click opens the confirmation
 * dialog; only its confirm action logs out, then reloads the site at `/`).
 */
module Navbar {
  import opened Common
  import opened Text
  import opened AuthContext
  import opened AuthService

  /**
   * `.map(n => n[0]).join('')`: the first character of every word, where
   * an empty word's `n[0]` is `undefined` and `join` renders it as nothing.
   */
  function Heads(words: seq<string>): (r: string)
    ensures |r| <= |words|
    ensures (forall i :: 0 <= i < |words| ==> words[i] != "") ==> |r| == |words|
  {
    if words == [] then ""
    else (if words[0] == "" then "" else [words[0][0]]) + Heads(words[1..])
  }

  /** Lines 42-50. */
  function GetInitials(name: Option<string>): (r: string)
    ensures |r| <= 2
    ensures name.None? || name == Some("") ==> r == "U"
  {
    match name
    case None => "U"
    case Some(n) => if n == "" then "U" else Take(Upper(Heads(Split(n, " "))), 2)
  }

  /**
   * An independent reading of the same rule: the characters of `s` that
   * start a word, a word being a maximal run without spaces; `atStart`
   * says whether the previous character was a space or there was none.
   */
  function WordStarts(s: string, atStart: bool): string
    decreases |s|
  {
    if s == [] then ""
    else if s[0] == ' ' then WordStarts(s[1..], true)
    else (if atStart then [s[0]] else "") + WordStarts(s[1..], false)
  }

  /** No word start is a space. */
  lemma {:induction false} WordStartsAreNotSpaces(s: string, atStart: bool)
    ensures ' ' !in WordStarts(s, atStart)
    ensures |WordStarts(s, atStart)| <= |s|
    decreases |s|
  {
    if s != [] {
      WordStartsAreNotSpaces(s[1..], s[0] == ' ');
    }
  }

  /**
   * Splitting on spaces and taking each word's head yields exactly the word
   * starts; after the first part, it yields the word starts that follow
   * the first word.
   */
  lemma {:induction false} HeadsOfSplit(s: string)
    ensures Heads(Split(s, " ")) == WordStarts(s, true)
    ensures Heads(Split(s, " ")[1..]) == WordStarts(s, false)
    decreases |s|
  {
    if s != [] {
      var rest := Split(s[1..], " ");
      HeadsOfSplit(s[1..]);
      if s[..1] == " " {
        assert s[0] == ' ';
        assert Split(s, " ") == [""] + rest;
        assert Split(s, " ")[1..] == rest;
      } else {
        assert s[0] != ' ';
        var parts := Split(s, " ");
        assert parts == [[s[0]] + rest[0]] + rest[1..];
        assert parts[1..] == rest[1..];
        assert Heads(parts) == [s[0]] + Heads(rest[1..]);
      }
    }
  }

  /**
   * Lines 44-49: a non-empty name gives the upper-cased starts of its first
   * two words; leading and repeated spaces contribute nothing, and the
   * result never holds a space.
   */
  lemma NamedInitials(name: string)
    requires name != ""
    ensures GetInitials(Some(name)) == Take(Upper(WordStarts(name, true)), 2)
    ensures ' ' !in GetInitials(Some(name))
  {
    HeadsOfSplit(name);
    WordStartsAreNotSpaces(name, true);
    var u := Upper(WordStarts(name, true));
    assert forall i :: 0 <= i < |u| ==> u[i] != ' ' by {
      forall i | 0 <= i < |u|
        ensures u[i] != ' '
      {
        assert WordStarts(name, true)[i] in WordStarts(name, true);
      }
    }
  }

  /** A name of spaces only has no word starts: the avatar shows nothing, not "U". */
  lemma {:induction false} BlankNameHasNoInitials(name: string)
    requires forall i :: 0 <= i < |name| ==> name[i] == ' '
    ensures WordStarts(name, true) == ""
    decreases |name|
  {
    if name != [] {
      BlankNameHasNoInitials(name[1..]);
    }
  }

  /** The bar's own state: whether the logout confirmation is open. */
  class NavbarState {
    var showLogoutDialog: bool

    /** Line 31. */
    constructor()
      ensures !showLogoutDialog
    {
      showLogoutDialog := false;
    }

    /** Lines 33-35: the menu item only opens the dialog; no logout is requested. */
    method HandleLogoutClick()
      modifies this
      ensures showLogoutDialog
    {
      showLogoutDialog := true;
    }

    /** Line 175: the dialog's own open and cancel controls. */
    method SetShowLogoutDialog(open: bool)
      modifies this
      ensures showLogoutDialog == open
    {
      showLogoutDialog := open;
    }

    /**
     * Lines 37-40, the dialog's confirm action (line 185): log out, wait for
     * it to settle and then load `/` whatever came of it.
     */
    method ConfirmLogout(auth: AuthProvider, outcome: Outcome<(), ServiceError>) returns (call: AuthCall, href: string)
      modifies auth
      ensures call == LogoutCall
      ensures auth.Current() == AfterLogout(old(auth.Current()), outcome).session
      ensures href == "/"
    {
      var result, toast;
      call, result, toast := auth.Logout(outcome);
      href := "/";
    }
  }
}
