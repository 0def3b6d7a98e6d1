/**
 * Request validation and message sanitisation (backend/src/middleware/validation.ts):
 * the chat-message schema, the middleware that answers 400 or passes the parsed body
 * on, sanitizeMessage, and the version-4 UUID shape test.
 */
module Validation {
  import opened Types
  import opened JsText

  const MIN_MESSAGE_LENGTH := 1
  const MAX_MESSAGE_LENGTH := 2000
  /** Runs of at least this many white-space characters are collapsed to this many spaces. */
  const WHITESPACE_RUN_CAP := 10
  const NUL := '\0'

  // ---------------------------------------------------------------------------
  // chatMessageSchema and validateChatMessage
  // ---------------------------------------------------------------------------

  /**
   * The JSON body as it reaches the middleware. `None` is an absent field;
   * fields of other JSON types are not modelled.
   */
  datatype RequestBody = RequestBody(message: Option<string>, sessionId: Option<string>)

  /** One entry of the `details` list: the field path and the schema's message. */
  datatype Issue = Issue(field: string, message: string)

  datatype ValidationFailure = ValidationFailure(
    statusCode: int,
    error: string,
    message: string,
    details: seq<Issue>)

  function MessageIssues(message: Option<string>): seq<Issue> {
    match message
    case None => [Issue("message", "Required")]
    case Some(m) =>
      (if Length(m) < MIN_MESSAGE_LENGTH then [Issue("message", "Message cannot be empty")] else [])
      + (if Length(m) > MAX_MESSAGE_LENGTH then [Issue("message", "Message cannot exceed 2000 characters")] else [])
  }

  /** `isUuid` stands for the schema library's own `.uuid()` check, whose pattern is not part of this model. */
  function SessionIdIssues(sessionId: Option<string>, isUuid: string -> bool): seq<Issue> {
    match sessionId
    case None => []
    case Some(id) => if isUuid(id) then [] else [Issue("sessionId", "Invalid session ID format")]
  }

  /**
   * chatMessageSchema.safeParse: the length checks count the raw message's UTF-16
   * code units, and only a message that passes them is trimmed.
   */
  function ParseChatMessage(body: RequestBody, isUuid: string -> bool): (r: Result<ChatRequest, seq<Issue>>)
    ensures r.Success? <==>
      && body.message.Some?
      && MIN_MESSAGE_LENGTH <= Length(body.message.value) <= MAX_MESSAGE_LENGTH
      && (body.sessionId.Some? ==> isUuid(body.sessionId.value))
    ensures r.Success? ==> r.value == ChatRequest(Trim(body.message.value), body.sessionId)
    ensures r.Success? ==> |r.value.message| <= MAX_MESSAGE_LENGTH
    ensures r.Failure? ==> r.error != [] && forall k :: 0 <= k < |r.error| ==> r.error[k].field in {"message", "sessionId"}
  {
    var issues := MessageIssues(body.message) + SessionIdIssues(body.sessionId, isUuid);
    if issues == [] then Success(ChatRequest(Trim(body.message.value), body.sessionId))
    else Failure(issues)
  }

  /** validateChatMessage: a failed parse answers 400 and the handler is not reached. */
  function ValidateChatMessage(body: RequestBody, isUuid: string -> bool): (r: Result<ChatRequest, ValidationFailure>)
    ensures r.Success? <==> ParseChatMessage(body, isUuid).Success?
    ensures r.Success? ==> r.value == ParseChatMessage(body, isUuid).value
    ensures r.Failure? ==>
      && r.error.statusCode == 400
      && r.error.error == "Validation Error"
      && r.error.message == "Invalid request data"
      && r.error.details == ParseChatMessage(body, isUuid).error
      && r.error.details != []
  {
    match ParseChatMessage(body, isUuid)
    case Success(data) => Success(data)
    case Failure(issues) => Failure(ValidationFailure(400, "Validation Error", "Invalid request data", issues))
  }

  /** The boundary cases: 2000 code units pass, 2001 and the empty string do not. */
  lemma {:induction false} MessageLengthBoundary(m: string, isUuid: string -> bool)
    ensures Length(m) == MAX_MESSAGE_LENGTH ==> ValidateChatMessage(RequestBody(Some(m), None), isUuid).Success?
    ensures Length(m) == MAX_MESSAGE_LENGTH + 1 ==> ValidateChatMessage(RequestBody(Some(m), None), isUuid).Failure?
    ensures m == [] ==> ValidateChatMessage(RequestBody(Some(m), None), isUuid).Failure?
  {
  }

  /**
   * A code point above U+FFFF counts twice: 1001 emoji are 2002 code units, so the
   * message is refused although it holds fewer than 2000 characters.
   */
  lemma AstralMessageRejected(isUuid: string -> bool)
    ensures var m := seq(1001, _ => '\U{1F600}');
      |m| < MAX_MESSAGE_LENGTH && ValidateChatMessage(RequestBody(Some(m), None), isUuid).Failure?
  {
    LengthOfCopies('\U{1F600}', 1001);
  }

  // ---------------------------------------------------------------------------
  // sanitizeMessage
  // ---------------------------------------------------------------------------

  /** `s.replace(/\0/g, '')`: every NUL goes, everything else stays. */
  function RemoveNul(s: string): (r: string)
    ensures NUL !in r
    ensures |r| <= |s|
    ensures multiset(r) == multiset(s)[NUL := 0]
  {
    if s == [] then []
    else
      assert s == [s[0]] + s[1..];
      (if s[0] == NUL then [] else [s[0]]) + RemoveNul(s[1..])
  }

  /** NUL removal works character by character: it distributes over concatenation. */
  lemma {:induction false} RemoveNulConcat(a: string, b: string)
    ensures RemoveNul(a + b) == RemoveNul(a) + RemoveNul(b)
    decreases |a|
  {
    if a == [] {
      assert a + b == b;
      assert RemoveNul(a) == [];
      assert RemoveNul(a + b) == RemoveNul(a) + RemoveNul(b);
    } else {
      assert (a + b)[0] == a[0] && (a + b)[1..] == a[1..] + b;
      RemoveNulStep(a + b);
      RemoveNulStep(a);
      RemoveNulConcat(a[1..], b);
      ConcatAssociative(if a[0] == NUL then [] else [a[0]], RemoveNul(a[1..]), RemoveNul(b));
    }
  }

  lemma ConcatAssociative<T>(a: seq<T>, b: seq<T>, c: seq<T>)
    ensures a + (b + c) == (a + b) + c
  {
  }

  lemma RemoveNulStep(s: string)
    requires s != []
    ensures RemoveNul(s) == (if s[0] == NUL then [] else [s[0]]) + RemoveNul(s[1..])
  {
  }

  /** Text without NUL is left exactly as it is. */
  lemma {:induction false} RemoveNulWithoutNul(s: string)
    requires NUL !in s
    ensures RemoveNul(s) == s
    decreases |s|
  {
    if s != [] {
      assert s == [s[0]] + s[1..];
      RemoveNulWithoutNul(s[1..]);
    }
  }

  /**
   * `s.replace(/\s{10,}/g, ' '.repeat(10))`, scanned the way a global regular
   * expression replace scans: at each position try a greedy match of ten or more
   * white-space characters; on success emit the replacement and resume after the
   * match, otherwise copy one character and move on.
   */
  function CollapseWhitespace(s: string): (r: string)
    ensures |r| <= |s|
    ensures NUL !in s ==> NUL !in r
    decreases |s|
  {
    if s == [] then []
    else
      var n := WhitespaceRun(s);
      if n >= WHITESPACE_RUN_CAP then
        assert NUL in s[n..] ==> NUL in s;
        Spaces(WHITESPACE_RUN_CAP) + CollapseWhitespace(s[n..])
      else
        assert NUL in s[1..] ==> NUL in s;
        [s[0]] + CollapseWhitespace(s[1..])
  }

  /** sanitizeMessage: trim, then drop NULs, then collapse long white-space runs. */
  function Sanitize(s: string): (r: string)
    ensures NUL !in r
    ensures |r| <= |s|
  {
    CollapseWhitespace(RemoveNul(Trim(s)))
  }

  /**
   * What sanitising guarantees: no NUL survives, the text never grows, the visible
   * characters are kept exactly and in order, no white-space run is longer than ten,
   * and an all-white-space message becomes empty.
   */
  lemma SanitizeProperties(s: string)
    ensures NUL !in Sanitize(s)
    ensures |Sanitize(s)| <= |s|
    ensures Visible(Sanitize(s)) == Visible(s)
    ensures RunsAtMost(Sanitize(s), WHITESPACE_RUN_CAP)
    ensures AllWhitespace(s) ==> Sanitize(s) == []
  {
    var trimmed := Trim(s);
    var noNul := RemoveNul(trimmed);
    VisibleTrim(s);
    VisibleRemoveNul(trimmed);
    VisibleCollapse(noNul);
    CollapseRunsBounded(noNul);
  }

  /** The characters that carry content: neither white space nor NUL, in order. */
  function Visible(s: string): (r: string)
    ensures |r| <= |s|
  {
    if s == [] then []
    else Visible(s[..|s| - 1]) + (if IsWhitespace(s[|s| - 1]) || s[|s| - 1] == NUL then [] else [s[|s| - 1]])
  }

  /** No white-space run starting anywhere in `s` is longer than `cap`. */
  predicate RunsAtMost(s: string, cap: nat) {
    forall i :: 0 <= i < |s| ==> WhitespaceRun(s[i..]) <= cap
  }

  lemma {:induction false} VisibleConcat(a: string, b: string)
    ensures Visible(a + b) == Visible(a) + Visible(b)
    decreases |b|
  {
    if b == [] {
      assert a + b == a;
    } else {
      assert (a + b)[..|a + b| - 1] == a + b[..|b| - 1];
      VisibleConcat(a, b[..|b| - 1]);
    }
  }

  lemma {:induction false} VisibleOfWhitespace(s: string)
    requires AllWhitespace(s)
    ensures Visible(s) == []
  {
    if s != [] {
      VisibleOfWhitespace(s[..|s| - 1]);
    }
  }

  lemma {:induction false} VisibleTrimStart(s: string)
    ensures Visible(TrimStart(s)) == Visible(s)
  {
    var t := TrimStart(s);
    var lead := s[..|s| - |t|];
    assert s == lead + t;
    VisibleConcat(lead, t);
    VisibleOfWhitespace(lead);
  }

  lemma {:induction false} VisibleTrimEnd(s: string)
    ensures Visible(TrimEnd(s)) == Visible(s)
  {
    var r := TrimEnd(s);
    var trail := s[|r|..];
    assert s == r + trail;
    VisibleConcat(r, trail);
    VisibleOfWhitespace(trail);
  }

  /** Trimming removes only white space, so it keeps every visible character in order. */
  lemma {:induction false} VisibleTrim(s: string)
    ensures Visible(Trim(s)) == Visible(s)
  {
    VisibleTrimStart(s);
    VisibleTrimEnd(TrimStart(s));
  }

  /** A single character is visible unless it is white space or NUL. */
  lemma VisibleSingle(c: char)
    ensures Visible([c]) == if IsWhitespace(c) || c == NUL then [] else [c]
  {
    assert [c][..0] == [];
  }

  lemma {:induction false} VisibleRemoveNul(s: string)
    ensures Visible(RemoveNul(s)) == Visible(s)
  {
    if s != [] {
      var head, tail := [s[0]], s[1..];
      var kept := if s[0] == NUL then [] else head;
      assert s == head + tail;
      assert RemoveNul(s) == kept + RemoveNul(tail);
      VisibleSingle(s[0]);
      assert Visible(kept) == Visible(head);
      VisibleRemoveNul(tail);
      VisibleConcat(kept, RemoveNul(tail));
      VisibleConcat(head, tail);
    }
  }

  /** Collapsing rewrites only white space, so the visible characters survive in order. */
  lemma {:induction false} VisibleCollapse(s: string)
    ensures Visible(CollapseWhitespace(s)) == Visible(s)
    decreases |s|
  {
    if s != [] {
      var n := WhitespaceRun(s);
      if n >= WHITESPACE_RUN_CAP {
        VisibleCollapse(s[n..]);
        VisibleConcat(Spaces(WHITESPACE_RUN_CAP), CollapseWhitespace(s[n..]));
        VisibleOfWhitespace(Spaces(WHITESPACE_RUN_CAP));
        assert s == s[..n] + s[n..];
        VisibleConcat(s[..n], s[n..]);
        VisibleOfWhitespace(s[..n]);
      } else {
        VisibleCollapse(s[1..]);
        VisibleConcat([s[0]], CollapseWhitespace(s[1..]));
        assert s == [s[0]] + s[1..];
        VisibleConcat([s[0]], s[1..]);
      }
    }
  }

  /**
   * The scan replaces a whole maximal run: a run of ten or more becomes exactly
   * ten spaces, a shorter run is copied unchanged.
   */
  lemma {:induction false} CollapseRun(s: string)
    requires WhitespaceRun(s) > 0
    ensures var n := WhitespaceRun(s);
      CollapseWhitespace(s) ==
        (if n >= WHITESPACE_RUN_CAP then Spaces(WHITESPACE_RUN_CAP) else s[..n]) + CollapseWhitespace(s[n..])
  {
    if WhitespaceRun(s) < WHITESPACE_RUN_CAP {
      CollapseShortRun(s);
    }
  }

  predicate NoWhitespace(s: string) {
    forall i :: 0 <= i < |s| ==> !IsWhitespace(s[i])
  }

  /** Text free of white space in front of `s` is copied unchanged, wherever `s` stands. */
  lemma {:induction false} CollapseAfterText(v: string, s: string)
    requires NoWhitespace(v)
    ensures CollapseWhitespace(v + s) == v + CollapseWhitespace(s)
    decreases |v|
  {
    if v == [] {
      assert v + s == s;
    } else {
      var t := v + s;
      assert t[0] == v[0] && t[1..] == v[1..] + s;
      assert WhitespaceRun(t) == 0;
      assert CollapseWhitespace(t) == [v[0]] + CollapseWhitespace(v[1..] + s);
      CollapseAfterText(v[1..], s);
      assert v == [v[0]] + v[1..];
      ConcatAssociative([v[0]], v[1..], CollapseWhitespace(s));
    }
  }

  /**
   * The replacement applies at every position: a white-space run of ten or more
   * characters, after any text, becomes exactly ten spaces and the scan resumes
   * after it.
   */
  lemma {:induction false} CollapseLongRunAnywhere(v: string, w: string, rest: string)
    requires NoWhitespace(v) && AllWhitespace(w) && |w| >= WHITESPACE_RUN_CAP
    requires rest == [] || !IsWhitespace(rest[0])
    ensures CollapseWhitespace(v + w + rest) == v + Spaces(WHITESPACE_RUN_CAP) + CollapseWhitespace(rest)
  {
    CollapseAfterText(v, w + rest);
    WhitespaceRunOfConcat(w, rest);
    CollapseRun(w + rest);
    assert (w + rest)[|w|..] == rest;
    ConcatAssociative(v, w, rest);
    ConcatAssociative(v, Spaces(WHITESPACE_RUN_CAP), CollapseWhitespace(rest));
  }

  /** A run of one to nine white-space characters, after any text, is kept as it is. */
  lemma {:induction false} CollapseShortRunAnywhere(v: string, w: string, rest: string)
    requires NoWhitespace(v) && AllWhitespace(w) && 0 < |w| < WHITESPACE_RUN_CAP
    requires rest == [] || !IsWhitespace(rest[0])
    ensures CollapseWhitespace(v + w + rest) == v + w + CollapseWhitespace(rest)
  {
    CollapseAfterText(v, w + rest);
    WhitespaceRunOfConcat(w, rest);
    CollapseRun(w + rest);
    assert (w + rest)[..|w|] == w;
    assert (w + rest)[|w|..] == rest;
    ConcatAssociative(v, w, rest);
    ConcatAssociative(v, w, CollapseWhitespace(rest));
  }

  /** A run shorter than ten is copied one character at a time. */
  lemma {:induction false} CollapseShortRun(s: string)
    requires 0 < WhitespaceRun(s) < WHITESPACE_RUN_CAP
    ensures var n := WhitespaceRun(s); CollapseWhitespace(s) == s[..n] + CollapseWhitespace(s[n..])
    decreases |s|
  {
    var n := WhitespaceRun(s);
    var tail := s[1..];
    assert n == 1 + WhitespaceRun(tail);
    var step := CollapseWhitespace(s);
    assert step == [s[0]] + CollapseWhitespace(tail);
    if n == 1 {
      assert s[..1] == [s[0]];
    } else {
      CollapseShortRun(tail);
      var run, rest := s[1..n], CollapseWhitespace(s[n..]);
      assert tail[..n - 1] == run && tail[n - 1..] == s[n..];
      ConcatAssociative([s[0]], run, rest);
      assert [s[0]] + run == s[..n];
    }
  }

  /** Output that starts with a non-white-space character keeps that character first. */
  lemma CollapseKeepsHead(s: string)
    requires s == [] || !IsWhitespace(s[0])
    ensures var r := CollapseWhitespace(s); r == [] || !IsWhitespace(r[0])
  {
  }

  /** A white-space prefix of at most `cap` characters, glued to text whose runs are bounded. */
  lemma RunsAfterPrefix(p: string, rest: string, cap: nat)
    requires AllWhitespace(p) && |p| <= cap
    requires rest == [] || !IsWhitespace(rest[0])
    requires RunsAtMost(rest, cap)
    ensures RunsAtMost(p + rest, cap)
  {
    var r := p + rest;
    forall i | 0 <= i < |r| ensures WhitespaceRun(r[i..]) <= cap {
      if i < |p| {
        assert r[i..] == p[i..] + rest;
        WhitespaceRunOfConcat(p[i..], rest);
      } else {
        assert r[i..] == rest[i - |p|..];
      }
    }
  }

  /** After collapsing, no white-space run is longer than ten characters. */
  lemma {:induction false} CollapseRunsBounded(s: string)
    ensures RunsAtMost(CollapseWhitespace(s), WHITESPACE_RUN_CAP)
    decreases |s|
  {
    if s != [] {
      var n := WhitespaceRun(s);
      var r := CollapseWhitespace(s);
      if n == 0 {
        CollapseRunsBounded(s[1..]);
        var rest := CollapseWhitespace(s[1..]);
        forall i | 0 <= i < |r| ensures WhitespaceRun(r[i..]) <= WHITESPACE_RUN_CAP {
          if i > 0 {
            assert r[i..] == rest[i - 1..];
          }
        }
      } else {
        CollapseRun(s);
        CollapseRunsBounded(s[n..]);
        CollapseKeepsHead(s[n..]);
        var p := if n >= WHITESPACE_RUN_CAP then Spaces(WHITESPACE_RUN_CAP) else s[..n];
        RunsAfterPrefix(p, CollapseWhitespace(s[n..]), WHITESPACE_RUN_CAP);
      }
    }
  }

  /**
   * Trim runs before NUL removal, so a leading NUL can leave leading white space
   * behind: "\0 x" sanitises to " x".
   */
  lemma SanitizeLeavesSpaceAfterNul(c: char)
    requires !IsWhitespace(c) && c != NUL
    ensures Sanitize([NUL, ' ', c]) == [' ', c]
  {
    var s := [NUL, ' ', c];
    TrimOfTrimmed(s);
    RemoveLeadingNul(c);
    assert RemoveNul(Trim(s)) == [' ', c];
    CollapseShortText(c);
  }

  lemma RemoveLeadingNul(c: char)
    requires c != NUL
    ensures RemoveNul([NUL, ' ', c]) == [' ', c]
  {
    var s, t := [NUL, ' ', c], [' ', c];
    assert s[1..] == t && t[1..] == [c] && [c][1..] == [];
    assert RemoveNul([c]) == [c];
    assert RemoveNul(t) == [' '] + [c];
  }

  lemma CollapseShortText(c: char)
    requires !IsWhitespace(c)
    ensures CollapseWhitespace([' ', c]) == [' ', c]
  {
    var t := [' ', c];
    assert t[1..] == [c] && [c][1..] == [];
    assert WhitespaceRun(t) == 1;
    assert CollapseWhitespace(t[1..]) == [c];
  }

  /** Fifteen spaces pass the length check but sanitise to nothing. */
  lemma FifteenSpacesSanitiseToEmpty(isUuid: string -> bool)
    ensures var r := ValidateChatMessage(RequestBody(Some(Spaces(15)), None), isUuid);
      r.Success? && Sanitize(r.value.message) == []
  {
    assert AllWhitespace(Spaces(15));
  }

  // ---------------------------------------------------------------------------
  // isValidSessionId
  // ---------------------------------------------------------------------------

  /** One position of a fixed-length regular expression. */
  datatype CharClass = HexDigit | Exactly(c: char) | VariantDigit

  function Repeat(k: CharClass, n: nat): (r: seq<CharClass>)
    ensures |r| == n
    ensures forall i :: 0 <= i < n ==> r[i] == k
  {
    if n == 0 then [] else Repeat(k, n - 1) + [k]
  }

  /**
   * /^[0-9a-f]{8}-[0-9a-f]{4}-4[0-9a-f]{3}-[89ab][0-9a-f]{3}-[0-9a-f]{12}$/i,
   * one class per position: the version nibble `4` (section 4.1.3 of RFC 4122)
   * and the variant nibble `[89ab]` (section 4.1.1 of RFC 4122).
   */
  function UuidV4Pattern(): seq<CharClass> {
    Repeat(HexDigit, 8) + [Exactly('-')]
    + Repeat(HexDigit, 4) + [Exactly('-')]
    + [Exactly('4')] + Repeat(HexDigit, 3) + [Exactly('-')]
    + [VariantDigit] + Repeat(HexDigit, 3) + [Exactly('-')]
    + Repeat(HexDigit, 12)
  }

  predicate IsHexDigit(c: char) {
    '0' <= c <= '9' || 'a' <= c <= 'f' || 'A' <= c <= 'F'
  }

  /** Matching under the `i` flag: letters match in either case; digits and '-' have no case. */
  predicate InClass(c: char, k: CharClass) {
    match k
    case HexDigit => IsHexDigit(c)
    case Exactly(x) => c == x
    case VariantDigit => c in "89abAB"
  }

  /** The anchored pattern matches the whole string, position by position. */
  predicate IsValidSessionId(s: string)
    ensures IsValidSessionId(s) ==> |s| == 36
  {
    var p := UuidV4Pattern();
    |s| == |p| && forall i :: 0 <= i < |s| ==> InClass(s[i], p[i])
  }

  /** The shape written out: 36 characters, hyphens, version and variant nibbles, hex elsewhere. */
  predicate UuidV4Shape(s: string) {
    && |s| == 36
    && s[8] == '-' && s[13] == '-' && s[18] == '-' && s[23] == '-'
    && s[14] == '4'
    && s[19] in "89abAB"
    && forall i :: 0 <= i < 36 && i !in {8, 13, 14, 18, 19, 23} ==> IsHexDigit(s[i])
  }

  /** The class the pattern puts at position `i`. */
  function ClassAt(i: nat): CharClass {
    if i in {8, 13, 18, 23} then Exactly('-')
    else if i == 14 then Exactly('4')
    else if i == 19 then VariantDigit
    else HexDigit
  }

  lemma UuidV4PatternIndex(i: nat)
    requires i < 36
    ensures |UuidV4Pattern()| == 36
    ensures UuidV4Pattern()[i] == ClassAt(i)
  {
    var h8, h4, h3, h12 := Repeat(HexDigit, 8), Repeat(HexDigit, 4), Repeat(HexDigit, 3), Repeat(HexDigit, 12);
    var dash := [Exactly('-')];
    var p1 := h8 + dash + h4 + dash;
    var p2 := p1 + [Exactly('4')] + h3 + dash;
    var p3 := p2 + [VariantDigit] + h3 + dash;
    assert UuidV4Pattern() == p3 + h12;
    if i < 24 {
      if i < 19 {
        if i < 14 {
          assert (p3 + h12)[i] == p3[i] == p2[i] == p1[i];
        } else {
          assert (p3 + h12)[i] == p3[i] == p2[i];
        }
      } else {
        assert (p3 + h12)[i] == p3[i];
      }
    }
  }

  lemma UuidV4PatternAt()
    ensures |UuidV4Pattern()| == 36
    ensures forall i :: 0 <= i < 36 ==> UuidV4Pattern()[i] == ClassAt(i)
  {
    UuidV4PatternIndex(0);
    forall i | 0 <= i < 36 ensures UuidV4Pattern()[i] == ClassAt(i) {
      UuidV4PatternIndex(i);
    }
  }

  /** isValidSessionId holds exactly for strings of the version-4 UUID shape. */
  lemma IsValidSessionIdShape(s: string)
    ensures IsValidSessionId(s) <==> UuidV4Shape(s)
  {
    UuidV4PatternAt();
    var p := UuidV4Pattern();
    if IsValidSessionId(s) {
      assert InClass(s[8], p[8]) && InClass(s[13], p[13]) && InClass(s[18], p[18]);
      assert InClass(s[23], p[23]) && InClass(s[14], p[14]) && InClass(s[19], p[19]);
    }
    if UuidV4Shape(s) {
      forall i | 0 <= i < |s| ensures InClass(s[i], p[i]) {
        if i !in {8, 13, 14, 18, 19, 23} {
          assert IsHexDigit(s[i]);
        }
      }
    }
  }
}
