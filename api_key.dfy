/**
 * Reading the Google geocoding API key from configuration
 * (InventorySourceSelection, DistanceProvider/GoogleMap/GetApiKey).
 */
module ApiKey {
  import opened Wrappers
  import opened Php

  datatype ApiKeyError = ApiKeyNotDefined

  /** The characters PHP's trim() strips by default: space, tab, LF, CR, NUL and vertical tab. */
  predicate IsTrimmed(c: char)
  {
    c == ' ' || c == '\t' || c == '\n' || c == '\r' || c == '\0' || c == '\U{B}'
  }

  predicate AllTrimmed(s: string)
  {
    forall k :: 0 <= k < |s| ==> IsTrimmed(s[k])
  }

  /** Drops the leading trimmed characters: the longest such prefix goes. */
  function TrimLeft(s: string): (r: string)
    ensures |r| <= |s| && r == s[|s| - |r|..]
    ensures AllTrimmed(s[..|s| - |r|])
    ensures r == [] || !IsTrimmed(r[0])
  {
    if s != [] && IsTrimmed(s[0]) then TrimLeft(s[1..]) else s
  }

  /** Drops the trailing trimmed characters: the longest such suffix goes. */
  function TrimRight(s: string): (r: string)
    ensures |r| <= |s| && r == s[..|r|]
    ensures AllTrimmed(s[|r|..])
    ensures r == [] || !IsTrimmed(r[|r| - 1])
  {
    if s != [] && IsTrimmed(s[|s| - 1]) then TrimRight(s[..|s| - 1]) else s
  }

  /** PHP's trim() with its default character list. */
  function Trim(s: string): string
  {
    TrimRight(TrimLeft(s))
  }

  /** The trimmed string is the part of `s` between a trimmed prefix and a trimmed suffix, and it neither
      starts nor ends with a trimmed character. */
  lemma TrimBounds(s: string) returns (i: nat, j: nat)
    ensures i <= j <= |s| && Trim(s) == s[i..j]
    ensures AllTrimmed(s[..i]) && AllTrimmed(s[j..])
    ensures Trim(s) == [] || (!IsTrimmed(Trim(s)[0]) && !IsTrimmed(Trim(s)[|Trim(s)| - 1]))
  {
    var l := TrimLeft(s);
    var r := TrimRight(l);
    i := |s| - |l|;
    j := i + |r|;
    assert s[i..j] == l[..|r|];
    assert s[j..] == l[|r|..];
    if r != [] {
      assert r[0] == l[0];
    }
  }

  /** Trimming yields the empty string exactly when every character of `s` is trimmed. */
  lemma TrimEmptyIff(s: string)
    ensures Trim(s) == [] <==> AllTrimmed(s)
  {
    var i, j := TrimBounds(s);
    if Trim(s) == [] {
      forall k | 0 <= k < |s| ensures IsTrimmed(s[k]) {
        if k < i {
          assert s[k] == s[..i][k];
        } else {
          assert s[k] == s[j..][k - j];
        }
      }
    } else {
      assert s[i] == Trim(s)[0];
    }
  }

  /** `GetApiKey::execute`: trim the configured value (null reads as ""), reject it when the result is falsy. */
  function GetApiKey(configured: Option<string>): (r: Result<string, ApiKeyError>)
  {
    var apiKey := Trim(StringCast(configured));
    if !TruthyString(apiKey) then Failure(ApiKeyNotDefined) else Success(apiKey)
  }

  /** A returned key is the configured value with its surrounding whitespace removed: it is non-empty, not
      "0", and neither starts nor ends with whitespace. */
  lemma ApiKeyAccepted(configured: Option<string>) returns (i: nat, j: nat)
    requires GetApiKey(configured).Success?
    ensures configured.Some? && i < j <= |configured.value|
    ensures GetApiKey(configured).value == configured.value[i..j]
    ensures AllTrimmed(configured.value[..i]) && AllTrimmed(configured.value[j..])
    ensures var key := GetApiKey(configured).value;
      key != "0" && !IsTrimmed(key[0]) && !IsTrimmed(key[|key| - 1])
  {
    i, j := TrimBounds(StringCast(configured));
  }

  /** The key is rejected exactly when nothing is configured, the value is whitespace only, or it trims to
      "0" (a falsy PHP string). */
  lemma ApiKeyRejectedIff(configured: Option<string>)
    ensures GetApiKey(configured) == Failure(ApiKeyNotDefined) <==>
      (configured.None? || AllTrimmed(configured.value) || Trim(configured.value) == "0")
  {
    TrimEmptyIff(StringCast(configured));
  }

  /** A key that trims to "0" is refused, as is a missing one. */
  lemma ApiKeyZeroExample()
    ensures GetApiKey(Some(" 0 ")) == Failure(ApiKeyNotDefined)
    ensures GetApiKey(None) == Failure(ApiKeyNotDefined)
  {
    assert TrimLeft(" 0 ") == "0 " by {
      assert " 0 "[1..] == "0 ";
    }
    assert TrimRight("0 ") == "0" by {
      assert "0 "[..1] == "0";
    }
  }
}
