/**
 Reading the session token out of `document.cookie`, the way every protected
 page does at render: split the cookie string on "; " (the cookie-header shape
 of section 5.4 of RFC 6265), take the first entry that starts with
 "auth_token=", split that entry on "=" and keep piece 1.
 */
module Cookies {
  import opened Wrappers
  import opened Js

  const TokenPrefix: string := "auth_token="

  predicate StartsWith(s: string, prefix: string)
  {
    |prefix| <= |s| && s[..|prefix|] == prefix
  }

  /** Some entry of the split cookie string carries the token. */
  predicate HasTokenEntry(entries: seq<string>)
  {
    exists k :: 0 <= k < |entries| && StartsWith(entries[k], TokenPrefix)
  }

  /** `entries.find(row => row.startsWith("auth_token="))`. */
  function FindTokenEntry(entries: seq<string>): (r: Option<string>)
    ensures r.None? <==> !HasTokenEntry(entries)
    ensures r.Some? ==> exists k :: (0 <= k < |entries| && entries[k] == r.value
      && StartsWith(r.value, TokenPrefix)
      && forall j :: 0 <= j < k ==> !StartsWith(entries[j], TokenPrefix))
  {
    if entries == [] then None
    else if StartsWith(entries[0], TokenPrefix) then Some(entries[0])
    else
      var r := FindTokenEntry(entries[1..]);
      assert r.Some? ==> exists k :: (0 <= k < |entries| && entries[k] == r.value
        && StartsWith(r.value, TokenPrefix)
        && forall j :: 0 <= j < k ==> !StartsWith(entries[j], TokenPrefix)) by {
        if r.Some? {
          var k :| 0 <= k < |entries[1..]| && entries[1..][k] == r.value
            && StartsWith(r.value, TokenPrefix)
            && forall j :: 0 <= j < k ==> !StartsWith(entries[1..][j], TokenPrefix);
          assert entries[k + 1] == r.value;
          forall j | 0 <= j < k + 1 ensures !StartsWith(entries[j], TokenPrefix) {
            if j > 0 {
              assert entries[j] == entries[1..][j - 1];
            }
          }
        }
      }
      assert r.None? ==> !HasTokenEntry(entries) by {
        if r.None? {
          forall k | 0 <= k < |entries| ensures !StartsWith(entries[k], TokenPrefix) {
            if k > 0 {
              assert entries[k] == entries[1..][k - 1];
            }
          }
        }
      }
      r
  }

  /** An entry that starts with "auth_token=" has an "=" at index 10, so splitting it on "=" gives two pieces or more. */
  lemma EntrySplitsInTwo(entry: string)
    requires StartsWith(entry, TokenPrefix)
    ensures |Split(entry, "=")| >= 2
  {
    assert entry[10..11] == TokenPrefix[10..11];
    assert OccursAt(entry, "=", 10);
    SplitHead(entry, "=");
  }

  /** The token of `cookie`, `undefined` (None) when no entry carries one. */
  function AuthToken(cookie: string): (r: Option<string>)
    ensures r.None? <==> !HasTokenEntry(Split(cookie, "; "))
  {
    var entries := Split(cookie, "; ");
    var found := FindTokenEntry(entries);
    match found
    case None => None
    case Some(entry) =>
      EntrySplitsInTwo(entry);
      Some(Split(entry, "=")[1])
  }

  /**
   Piece 1 of an "auth_token=" entry is the text after the first "=" up to the
   next "=" (or to the end): it never holds an "=" itself.
   */
  lemma {:induction false} TokenIsBetweenFirstAndSecondEquals(entry: string)
    requires StartsWith(entry, TokenPrefix)
    ensures |Split(entry, "=")| >= 2
    ensures var tok := Split(entry, "=")[1];
      '=' !in tok
      && 11 + |tok| <= |entry| && entry[11..11 + |tok|] == tok
      && (11 + |tok| == |entry| || entry[11 + |tok|] == '=')
  {
    EntrySplitsInTwo(entry);
    assert "auth_token" == entry[..10];
    assert forall j :: 0 <= j < 10 ==> !OccursAt(entry, "=", j) by {
      forall j | 0 <= j < 10 ensures !OccursAt(entry, "=", j) {
        assert entry[j] == TokenPrefix[j];
        assert entry[j..j + 1] == [entry[j]];
      }
    }
    assert OccursAt(entry, "=", 10) by {
      assert entry[10..11] == TokenPrefix[10..11];
    }
    IndexOfFirst(entry, "=", 10);
    var rest := entry[11..];
    assert Split(entry, "=") == [entry[..10]] + Split(rest, "=");
    SplitHead(rest, "=");
    var tok := Split(rest, "=")[0];
    SplitPiecesHoldNoSeparator(rest, "=");
    assert IndexOf(tok, "=").None?;
    CharAbsentWhenNotFound(tok, '=');
    match IndexOf(rest, "=")
    case None =>
      assert tok == rest;
    case Some(i) =>
      assert tok == rest[..i];
      assert rest[i..i + 1] == "=";
  }

  /** A cookie string made of one "auth_token=" entry gives back the value written. */
  lemma TokenOfSingleEntry(value: string)
    requires ';' !in value && '=' !in value
    ensures AuthToken(TokenPrefix + value) == Some(value)
  {
    var cookie := TokenPrefix + value;
    assert ';' !in cookie by {
      assert cookie == "auth_token" + "=" + value;
    }
    IndexOfAbsent(cookie, "; ");
    SplitHead(cookie, "; ");
    assert StartsWith(cookie, TokenPrefix);
    SplitJoin(["auth_token", value], "=");
    assert Join(["auth_token", value], "=") == cookie;
  }

  /** No cookie at all, no token. */
  lemma EmptyCookieHasNoToken()
    ensures AuthToken("") == None
  {
    IndexOfAbsent("", "; ");
    SplitHead("", "; ");
  }

  /** `auth_token=` yields the empty token, which the pages' `!token` guard rejects. */
  lemma EmptyValueYieldsFalsyToken()
    ensures AuthToken("auth_token=") == Some("")
    ensures !Truthy(AuthToken("auth_token="))
  {
    TokenOfSingleEntry("");
    assert TokenPrefix + "" == "auth_token=";
  }

  /** `auth_token=""` yields a two-character token made of quote marks, which passes the guard. */
  lemma QuotedEmptyValueYieldsTruthyToken()
    ensures AuthToken("auth_token=\"\"") == Some("\"\"")
    ensures Truthy(AuthToken("auth_token=\"\""))
  {
    TokenOfSingleEntry("\"\"");
    assert TokenPrefix + "\"\"" == "auth_token=\"\"";
  }

  /**
   The name-value pair a browser keeps from an assignment to `document.cookie`:
   the text before the first ';' (section 5.2 of RFC 6265); the attributes after
   it are not part of the cookie string read back.
   */
  function StoredPair(assignment: string): (pair: string)
    ensures ';' !in pair
    ensures StartsWith(assignment, pair)
  {
    var pieces := Split(assignment, ";");
    SplitPiecesHoldNoSeparator(assignment, ";");
    SplitHead(assignment, ";");
    CharAbsentWhenNotFound(pieces[0], ';');
    pieces[0]
  }

  /** The pair kept from `pair; attributes` is `pair` when the pair holds no ';'. */
  lemma StoredPairOfAssignment(pair: string, attributes: string)
    requires ';' !in pair
    ensures StoredPair(pair + ";" + attributes) == pair
  {
    IndexOfAfterPiece(pair, ";", attributes);
    assert (pair + ";" + attributes)[..|pair|] == pair;
  }

  /** An assignment without attributes is kept whole. */
  lemma StoredPairOfBareAssignment(pair: string)
    requires ';' !in pair
    ensures StoredPair(pair) == pair
  {
    IndexOfAbsent(pair, ";");
  }

  /**
   The cookie string after assigning `assignment` to `document.cookie`, when the
   pages' only cookie is `jar`: a pair without '=' is ignored (section 5.2 of
   RFC 6265), any other pair replaces the cookie. The pages assign nothing but
   `auth_token` pairs and the empty string, so one cookie is all the jar holds.
   */
  function CookieAfter(jar: string, assignment: string): (after: string)
    ensures after == jar || after == StoredPair(assignment)
    ensures '=' in StoredPair(assignment) ==> after == StoredPair(assignment)
    ensures '=' !in StoredPair(assignment) ==> after == jar
  {
    var pair := StoredPair(assignment);
    if '=' in pair then pair else jar
  }

  /** The cookie string after a run of assignments, oldest first. */
  function CookieAfterWrites(jar: string, writes: seq<string>): string
    decreases |writes|
  {
    if writes == [] then jar else CookieAfterWrites(CookieAfter(jar, writes[0]), writes[1..])
  }

  /** Assigning the empty string stores nothing: the earlier cookie, and so its token, stays. */
  lemma EmptyAssignmentStoresNothing(jar: string)
    ensures CookieAfter(jar, "") == jar
    ensures AuthToken(CookieAfterWrites(jar, [""])) == AuthToken(jar)
  {
    StoredPairOfBareAssignment("");
  }

  /** The fields of a successful login or sign-up answer that the pages read. */
  datatype Session = Session(token: string, role: string)

  /** The attributes of the session cookie; max-age is 7 * 24 * 60 * 60 seconds. */
  const SessionAttributes: string := " path=/; max-age=604800; Secure; SameSite=Strict"

  /** The assignment to `document.cookie` after a successful login or sign-up. */
  function SessionCookie(token: string): string
  {
    TokenPrefix + token + ";" + SessionAttributes
  }

  /** A token without ';' or '=' written by SessionCookie is the token every protected page reads back. */
  lemma SessionCookieRoundTrip(token: string)
    requires ';' !in token && '=' !in token
    ensures AuthToken(StoredPair(SessionCookie(token))) == Some(token)
  {
    assert ';' !in TokenPrefix + token by {
      assert TokenPrefix + token == "auth_token=" + token;
    }
    StoredPairOfAssignment(TokenPrefix + token, SessionAttributes);
    TokenOfSingleEntry(token);
  }

  /** After the session cookie is written, whatever came before, every protected page reads its token. */
  lemma SessionCookieReplacesJar(jar: string, token: string)
    requires ';' !in token && '=' !in token
    ensures AuthToken(CookieAfterWrites(jar, [SessionCookie(token)])) == Some(token)
  {
    assert ';' !in TokenPrefix + token by {
      assert TokenPrefix + token == "auth_token=" + token;
    }
    StoredPairOfAssignment(TokenPrefix + token, SessionAttributes);
    assert (TokenPrefix + token)[10] == '=';
    SessionCookieRoundTrip(token);
  }
}
