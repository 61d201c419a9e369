/** The Unity Relay transport's settings object (UtpTransportSettings.cs). A
    `null` join code is `None`. */
module UtpSettings {
  import opened NetTypes

  /** `char.ToUpper` on the letters `a`–`z`; every other character is kept. */
  function ToUpperChar(c: char): (r: char)
    ensures 'a' <= c <= 'z' ==> 'A' <= r <= 'Z' && r as int - c as int == 'A' as int - 'a' as int
    ensures !('a' <= c <= 'z') ==> r == c
  {
    if 'a' <= c <= 'z' then (c as int - 'a' as int + 'A' as int) as char else c
  }

  /** `string.ToUpper`, character by character. */
  function ToUpper(s: string): (r: string)
    ensures |r| == |s|
    ensures forall i :: 0 <= i < |s| ==> r[i] == ToUpperChar(s[i])
  {
    if s == [] then [] else ToUpper(s[..|s| - 1]) + [ToUpperChar(s[|s| - 1])]
  }

  /** No lower-case letter remains. */
  predicate IsUpper(s: string)
  {
    forall i :: 0 <= i < |s| ==> !('a' <= s[i] <= 'z')
  }

  /** Upper-casing leaves no lower-case letter, and a string without lower-case letters
      is its own upper-cased form: upper-casing is idempotent. */
  lemma ToUpperIsUpper(s: string)
    ensures IsUpper(ToUpper(s))
    ensures IsUpper(s) <==> ToUpper(s) == s
  {
    if IsUpper(s) {
      assert forall i :: 0 <= i < |s| ==> ToUpper(s)[i] == s[i];
    }
    if ToUpper(s) == s {
      forall i | 0 <= i < |s|
        ensures !('a' <= s[i] <= 'z')
      {
        assert ToUpper(s)[i] == ToUpperChar(s[i]);
      }
    }
  }

  /** The join code the setter stores for `value`. */
  function StoredJoinCode(value: Option<string>): (r: Option<string>)
    ensures r.None? <==> value.None?
    ensures r.Some? ==> IsUpper(r.value) && |r.value| == |value.value|
    ensures r.Some? ==> r.value == ToUpper(value.value)
  {
    match value
    case None => None
    case Some(s) => ToUpperIsUpper(s); Some(ToUpper(s))
  }

  /** The setter is idempotent: storing a stored code again changes nothing. */
  lemma StoredJoinCodeIdempotent(value: Option<string>)
    ensures StoredJoinCode(StoredJoinCode(value)) == StoredJoinCode(value)
  {
    if value.Some? {
      ToUpperIsUpper(value.value);
      ToUpperIsUpper(ToUpper(value.value));
    }
  }

  class UtpTransportSettings {
    var maxConnections: int
    var joinCode: Option<string>
    var autoSignInToUnityServices: bool

    constructor ()
      ensures maxConnections == 2 && joinCode == Some("") && autoSignInToUnityServices
    {
      maxConnections := 2;
      joinCode := Some("");
      autoSignInToUnityServices := true;
    }

    method SetMaxConnections(value: int)
      modifies this`maxConnections
      ensures maxConnections == value
    {
      maxConnections := value;
    }

    /** The `JoinCode` setter: stores the upper-cased code; `null` stays `null`. */
    method SetJoinCode(value: Option<string>)
      modifies this`joinCode
      ensures joinCode == StoredJoinCode(value)
    {
      match value {
        case None => joinCode := None;
        case Some(s) => joinCode := Some(ToUpper(s));
      }
    }

    method SetAutoSignInToUnityServices(value: bool)
      modifies this`autoSignInToUnityServices
      ensures autoSignInToUnityServices == value
    {
      autoSignInToUnityServices := value;
    }
  }
}
