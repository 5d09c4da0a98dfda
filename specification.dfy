/**
 * The nine query clauses over a screenshot record, each as the predicate the
 * database evaluates for it, and their conjunction.
 */
module RecordSpecification {

  import opened Text
  import opened Records

  /** One clause factory call, with its argument. */
  datatype Clause =
    | HasGithubUsername(username: string)
    | HasRecipientEmail(email: string)
    | HasStatus(status: Status)
    | SentAfter(after: Instant)
    | SentBefore(before: Instant)
    | SentBetween(start: Instant, end: Instant)
    | FileSizeGte(minBytes: int)
    | FileSizeLte(maxBytes: int)
    | FileNameLike(fileKeyword: string)
    | Search(keyword: string)

  // ---------------------------------------------------------------------------
  // SQL LIKE
  // ---------------------------------------------------------------------------

  /** `s LIKE p`, where `%` matches any run of characters and `_` exactly one. */
  predicate Like(s: string, p: string)
    decreases |s| + |p|
  {
    if p == [] then s == []
    else if p[0] == '%' then Like(s, p[1..]) || (s != [] && Like(s[1..], p))
    else s != [] && (p[0] == '_' || p[0] == s[0]) && Like(s[1..], p[1..])
  }

  /** A keyword the pattern takes literally: no wildcard and no escape character. */
  predicate NoWildcards(k: string) {
    forall i | 0 <= i < |k| :: k[i] != '%' && k[i] != '_' && k[i] != '\\'
  }

  /** The pattern `"%" + k + "%"` the two text clauses build. */
  function ContainsPattern(k: string): string {
    "%" + k + "%"
  }

  lemma {:induction false} LikeAnything(s: string)
    ensures Like(s, "%")
    decreases |s|
  {
    if s != [] {
      LikeAnything(s[1..]);
    }
  }

  /** A literal prefix of the pattern must be a prefix of the subject. */
  lemma {:induction false} LikeLiteralThenAnything(s: string, k: string)
    requires NoWildcards(k)
    ensures Like(s, k + "%") <==> StartsWith(s, k)
    decreases |k|
  {
    if k == [] {
      assert k + "%" == "%";
      LikeAnything(s);
    } else {
      assert (k + "%")[0] == k[0] && (k + "%")[1..] == k[1..] + "%";
      if s != [] {
        LikeLiteralThenAnything(s[1..], k[1..]);
        if StartsWith(s, k) {
          assert s[1..][..|k[1..]|] == s[..|k|][1..];
        }
        if StartsWith(s[1..], k[1..]) && s[0] == k[0] {
          assert s[..|k|] == [s[0]] + s[1..][..|k[1..]|];
        }
      }
    }
  }

  /** With a literal keyword, `s LIKE '%k%'` is the substring test. */
  lemma {:induction false} LikeContains(s: string, k: string)
    requires NoWildcards(k)
    ensures Like(s, ContainsPattern(k)) <==> Contains(s, k)
    decreases |s|
  {
    var p := ContainsPattern(k);
    assert p[0] == '%' && p[1..] == k + "%";
    LikeLiteralThenAnything(s, k);
    if s != [] {
      LikeContains(s[1..], k);
    }
  }

  lemma NoWildcardsLower(k: string)
    requires NoWildcards(k)
    ensures NoWildcards(ToLower(k))
  {
  }

  // ---------------------------------------------------------------------------
  // Clause semantics
  // ---------------------------------------------------------------------------

  /** `lower(field) LIKE '%' || lower(keyword) || '%'`. */
  predicate LikeIgnoringCase(field: string, keyword: string) {
    Like(ToLower(field), ContainsPattern(ToLower(keyword)))
  }

  /** What the database checks for one clause on one row. */
  predicate Holds(c: Clause, e: Entity) {
    match c
    case HasGithubUsername(u) => e.githubUsername == u
    case HasRecipientEmail(m) => e.recipientEmail == m
    case HasStatus(s) => e.status == s
    case SentAfter(d) => e.sentAt > d
    case SentBefore(d) => e.sentAt < d
    case SentBetween(a, b) => a <= e.sentAt <= b
    case FileSizeGte(n) => e.fileSizeBytes >= n
    case FileSizeLte(n) => e.fileSizeBytes <= n
    case FileNameLike(k) => LikeIgnoringCase(e.fileName, k)
    case Search(k) =>
      LikeIgnoringCase(e.githubUsername, k) || LikeIgnoringCase(e.recipientEmail, k)
      || LikeIgnoringCase(e.fileName, k)
  }

  /** fileNameLike is a case-insensitive substring test on the file name. */
  lemma FileNameLikeIsSubstring(e: Entity, k: string)
    requires NoWildcards(k)
    ensures Holds(FileNameLike(k), e) <==> Contains(ToLower(e.fileName), ToLower(k))
  {
    NoWildcardsLower(k);
    LikeContains(ToLower(e.fileName), ToLower(k));
  }

  /** search is the same substring test, on any of the three text fields. */
  lemma SearchIsSubstring(e: Entity, k: string)
    requires NoWildcards(k)
    ensures Holds(Search(k), e) <==>
      Contains(ToLower(e.githubUsername), ToLower(k))
      || Contains(ToLower(e.recipientEmail), ToLower(k))
      || Contains(ToLower(e.fileName), ToLower(k))
  {
    NoWildcardsLower(k);
    LikeContains(ToLower(e.githubUsername), ToLower(k));
    LikeContains(ToLower(e.recipientEmail), ToLower(k));
    LikeContains(ToLower(e.fileName), ToLower(k));
  }

  /** Every row fileNameLike(k) accepts, search(k) accepts too. */
  lemma FileNameLikeImpliesSearch(e: Entity, k: string)
    requires Holds(FileNameLike(k), e)
    ensures Holds(Search(k), e)
  {
  }

  /** The text clauses ignore the case of the keyword. */
  lemma TextClausesIgnoreKeywordCase(e: Entity, k1: string, k2: string)
    requires EqualsIgnoreCase(k1, k2)
    ensures Holds(FileNameLike(k1), e) <==> Holds(FileNameLike(k2), e)
    ensures Holds(Search(k1), e) <==> Holds(Search(k2), e)
  {
    EqualsIgnoreCaseIsLowerEquality(k1, k2);
  }

  /** BETWEEN keeps its bounds, unlike sentAfter and sentBefore: a row sent exactly
      at the lower bound passes between(d, b) but not after(d). */
  lemma BetweenIncludesBounds(e: Entity, a: Instant, b: Instant)
    requires a <= b && (e.sentAt == a || e.sentAt == b)
    ensures Holds(SentBetween(a, b), e)
    ensures e.sentAt == a ==> !Holds(SentAfter(a), e)
    ensures e.sentAt == b ==> !Holds(SentBefore(b), e)
  {
  }

  // ---------------------------------------------------------------------------
  // Conjunction
  // ---------------------------------------------------------------------------

  /** A composed specification: one clause, or `left.and(right)`. */
  datatype Spec = Where(clause: Clause) | And(left: Spec, right: Spec)

  predicate Matches(s: Spec, e: Entity) {
    match s
    case Where(c) => Holds(c, e)
    case And(l, r) => Matches(l, e) && Matches(r, e)
  }

  /** `specs.stream().reduce(Specification::and)` on a non-empty list: a left fold. */
  function AndAll(cs: seq<Clause>): Spec
    requires |cs| >= 1
    decreases |cs|
  {
    if |cs| == 1 then Where(cs[0]) else And(AndAll(cs[..|cs| - 1]), Where(cs[|cs| - 1]))
  }

  /** The fold accepts a row exactly when every clause does. */
  lemma {:induction false} AndAllMatches(cs: seq<Clause>, e: Entity)
    requires |cs| >= 1
    ensures Matches(AndAll(cs), e) <==> forall i | 0 <= i < |cs| :: Holds(cs[i], e)
    decreases |cs|
  {
    if |cs| > 1 {
      var init := cs[..|cs| - 1];
      AndAllMatches(init, e);
      assert forall i | 0 <= i < |init| :: init[i] == cs[i];
    }
  }
}
