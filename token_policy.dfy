/**
 * The access-token format check of the token field's blur handler:
 * `/^[0-9a-f]{8}-[0-9a-f]{4}-[0-9a-f]{4}-[0-9a-f]{4}-[0-9a-f]{12}$/`.
 * The regular expression is kept as data (a sequence of pieces, matched
 * anchored at both ends) and proved equal to a positional description.
 */
module TokenPolicy {

  predicate IsLowerHex(c: char) {
    '0' <= c <= '9' || 'a' <= c <= 'f'
  }

  /** A piece of the pattern: `[0-9a-f]{count}` or one literal character. */
  datatype Piece = HexRun(count: nat) | Literal(c: char)

  const TokenPattern: seq<Piece> :=
    [HexRun(8), Literal('-'), HexRun(4), Literal('-'), HexRun(4), Literal('-'), HexRun(4), Literal('-'), HexRun(12)]

  predicate HexSpan(s: string, from: nat, to: nat)
    requires from <= to <= |s|
  {
    forall i :: from <= i < to ==> IsLowerHex(s[i])
  }

  /**
   * Pieces `ps[j..]` match `s[k..]` exactly (the `$` anchor). Every piece has
   * a fixed width, so no backtracking is involved.
   */
  predicate MatchesFrom(ps: seq<Piece>, j: nat, s: string, k: nat)
    ensures MatchesFrom(ps, j, s, k) ==> k + Width(ps, j) == |s|
    decreases |ps| - j
  {
    if j >= |ps| then k == |s|
    else match ps[j]
      case Literal(c) => k < |s| && s[k] == c && MatchesFrom(ps, j + 1, s, k + 1)
      case HexRun(n) => k + n <= |s| && HexSpan(s, k, k + n) && MatchesFrom(ps, j + 1, s, k + n)
  }

  /** Number of characters pieces `ps[j..]` consume. */
  function Width(ps: seq<Piece>, j: nat): nat
    decreases |ps| - j
  {
    if j >= |ps| then 0
    else match ps[j]
      case Literal(_) => 1 + Width(ps, j + 1)
      case HexRun(n) => n + Width(ps, j + 1)
  }

  /** `regex.test(s)` for a pattern anchored with `^` and `$`: only strings of the pattern's exact width can match. */
  predicate Matches(ps: seq<Piece>, s: string)
    ensures Matches(ps, s) ==> |s| == Width(ps, 0)
  {
    MatchesFrom(ps, 0, s, 0)
  }

  /** The canonical lower-case UUID text: 36 characters, hyphens at 8, 13, 18 and 23, lower-case hex elsewhere. */
  predicate IsToken(s: string) {
    |s| == 36 &&
    forall i :: 0 <= i < 36 ==> if i == 8 || i == 13 || i == 18 || i == 23 then s[i] == '-' else IsLowerHex(s[i])
  }

  /** The token regular expression accepts exactly the canonical lower-case UUID strings. */
  lemma TokenPatternMeaning(s: string)
    ensures Matches(TokenPattern, s) <==> IsToken(s)
  {
  }

  /** Every character of an accepted token is a hyphen or lower-case hex, so none is an upper-case letter or white space. */
  lemma TokenHasNoUpperCaseOrSpace(s: string, i: int)
    requires Matches(TokenPattern, s)
    requires 0 <= i < |s|
    ensures s[i] == '-' || IsLowerHex(s[i])
    ensures !('A' <= s[i] <= 'Z') && s[i] != ' ' && s[i] != '\t' && s[i] != '\n' && s[i] != '\r'
  {
  }

  /** A lower-case UUID is accepted. */
  lemma TokenAcceptsLowerCaseUuid()
    ensures Matches(TokenPattern, "550e8400-e29b-41d4-a716-446655440000")
  {
    var s := "550e8400-e29b-41d4-a716-446655440000";
    assert IsToken(s) by {
      forall i | 0 <= i < 36
        ensures if i == 8 || i == 13 || i == 18 || i == 23 then s[i] == '-' else IsLowerHex(s[i])
      {
      }
    }
    TokenPatternMeaning(s);
  }

  /** "not-a-token", the empty string and upper-case hex are rejected. */
  lemma TokenRejects()
    ensures !Matches(TokenPattern, "not-a-token")
    ensures !Matches(TokenPattern, "")
    ensures !Matches(TokenPattern, "550E8400-E29B-41D4-A716-446655440000")
  {
    TokenPatternMeaning("not-a-token");
    TokenPatternMeaning("");
    var upper := "550E8400-E29B-41D4-A716-446655440000";
    TokenPatternMeaning(upper);
    assert !IsLowerHex(upper[3]);
  }
}
