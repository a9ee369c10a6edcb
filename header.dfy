/**
 * The page header: the user name shown next to the avatar, derived from
 * the stored email whenever the token changes, and the logout handler.
 */
module Header {
  import opened Wrappers
  import opened Text
  import opened Stores

  /** `firstPart.charAt(0).toUpperCase() + firstPart.slice(1)` with `firstPart = email.split('@')[0]`. */
  function DisplayName(email: string): string {
    CapitalizeFirst(BeforeFirst(email, '@'))
  }

  /**
   * The name is the text before the first '@' (all of it when there is
   * none), with its first character upper-cased and the rest unchanged.
   */
  lemma DisplayNameSpec(email: string)
    ensures var name := DisplayName(email);
            && |name| <= |email| && '@' !in email[..|name|]
            && (|name| < |email| ==> email[|name|] == '@')
            && (name != [] ==> name[0] == UpperAscii(email[0]) && name[1..] == email[1..|name|])
  {
    var local := BeforeFirst(email, '@');
    assert local == email[..|local|];
    if local != [] {
      assert local[1..] == email[1..|local|];
    }
  }

  /** For an address `local@domain` with no '@' in `local`, the name is `local` capitalised. */
  lemma DisplayNameOfAddress(local: string, domain: string)
    requires '@' !in local
    ensures DisplayName(local + "@" + domain) == CapitalizeFirst(local)
  {
    var s := local + "@" + domain;
    var r := BeforeFirst(s, '@');
    assert s[|local|] == '@';
    assert s[..|local|] == local;
  }

  lemma DisplayNameExample()
    ensures DisplayName("john@example.com") == "John"
  {
    DisplayNameOfAddress("john", "example.com");
    assert "john" + "@" + "example.com" == "john@example.com";
  }

  /** The effect run when `token` changes: the next `userName` given the current one. */
  function NextUserName(token: Option<string>, storage: map<string, string>, current: string): string {
    if !Truthy(token) then "User"
    else
      var stored := Lookup(storage, EmailKey);
      if Truthy(stored) then DisplayName(stored.value) else current
  }

  /** No token: 'User'; a token and a stored email: its display name; a token and no email: unchanged. */
  lemma NextUserNameCases(token: Option<string>, storage: map<string, string>, current: string)
    ensures !Truthy(token) ==> NextUserName(token, storage, current) == "User"
    ensures Truthy(token) && EmailKey in storage && storage[EmailKey] != "" ==>
              NextUserName(token, storage, current) == DisplayName(storage[EmailKey])
    ensures Truthy(token) && (EmailKey !in storage || storage[EmailKey] == "") ==>
              NextUserName(token, storage, current) == current
  {
  }

  /** The browser state the header touches: localStorage and the app's `token` state. */
  class Page {
    var storage: map<string, string>
    var token: Option<string>

    constructor(storage: map<string, string>, token: Option<string>)
      ensures this.storage == storage && this.token == token
    {
      this.storage := storage;
      this.token := token;
    }

    /** `handleLogout()`; the navigation to /login is not modelled. */
    method HandleLogout()
      modifies this
      ensures storage == old(storage) - {TokenKey, EmailKey} && token == None
    {
      storage := storage - {TokenKey};
      storage := storage - {EmailKey};
      token := None;
    }
  }

  /** The header's logout leaves localStorage exactly as the auth store's logout does. */
  lemma HeaderLogoutMatchesStore(c: Client)
    ensures LoggedOut(c).auth.storage == c.auth.storage - {TokenKey, EmailKey}
    ensures LoggedOut(c).auth.token == None
  {
  }
}
