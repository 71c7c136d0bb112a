/** The `validateReview` rule chains that guard both the create and the update review routes.
    The chains do not stop at the first failure, so a missing field reports every rule it breaks;
    the `trim()` sanitiser's result is what the handler then reads. */
module Validation {
  import opened Basics
  import opened Http

  /** The `rating` body field, as the validator sees it: absent, null or "" (all read as the empty
      string), a text that is not a float, or a number. Parsing is not modelled. */
  datatype RatingField = Blank | NotANumber | Number(value: real)

  /** The body of a create or update review request; a field not sent is None. */
  datatype ReviewBody = ReviewBody(author: Option<string>, rating: RatingField, comment: Option<string>)

  /** The sanitised fields of a body that passed validation. */
  datatype ReviewInput = ReviewInput(author: string, rating: real, comment: string)

  const AuthorRequired := FieldError("author", "Author name is required")
  const AuthorLength := FieldError("author", "Author name must be between 2 and 100 characters")
  const RatingRequired := FieldError("rating", "Rating is required")
  const RatingRange := FieldError("rating", "Rating must be between 1 and 5")
  const CommentRequired := FieldError("comment", "Comment is required")
  const CommentLength := FieldError("comment", "Comment must be between 5 and 1000 characters")

  const MinAuthorLength: nat := 2
  const MaxAuthorLength: nat := 100
  const MinCommentLength: nat := 5
  const MaxCommentLength: nat := 1000
  const LowestRating: real := 1.0
  const HighestRating: real := 5.0

  /** A missing or null field reads as the empty string. */
  function FieldText(field: Option<string>): string {
    field.GetOr("")
  }

  /** A character of JavaScript's `\s` class, which `trim()` strips: tab, line feed, vertical tab,
      form feed, carriage return and space; the no-break space and the Ogham space mark; the en
      quad to the hair space, the line and paragraph separators, the narrow no-break space and
      the medium mathematical space; the ideographic space and the byte-order mark. */
  predicate IsWhitespace(c: char) {
    if c <= ' ' then c == ' ' || '\t' <= c <= '\r'
    else if c < '\U{2000}' then c == '\U{00A0}' || c == '\U{1680}'
    else if c <= '\U{205F}' then c <= '\U{200A}' || c == '\U{2028}' || c == '\U{2029}' || c == '\U{202F}' || c == '\U{205F}'
    else c == '\U{3000}' || c == '\U{FEFF}'
  }

  /** The same class as a set: the white-space and line-terminator characters of the ECMAScript
      language (its `WhiteSpace` and `LineTerminator` productions, the `Zs` category included). */
  const JsSpaces: set<char> := {
    '\t', '\n', '\U{000B}', '\U{000C}', '\r', ' ', '\U{00A0}', '\U{1680}',
    '\U{2000}', '\U{2001}', '\U{2002}', '\U{2003}', '\U{2004}', '\U{2005}', '\U{2006}',
    '\U{2007}', '\U{2008}', '\U{2009}', '\U{200A}',
    '\U{2028}', '\U{2029}', '\U{202F}', '\U{205F}', '\U{3000}', '\U{FEFF}'}

  /** `IsWhitespace` decides exactly the listed class. */
  lemma WhitespaceIsJsSpace(c: char)
    ensures IsWhitespace(c) <==> c in JsSpaces
  {
  }

  /** Drops the leading whitespace. */
  function TrimStart(s: string): (r: string)
    ensures |r| <= |s| && r == s[|s| - |r|..]
    ensures r == [] || !IsWhitespace(r[0])
  {
    if s != [] && IsWhitespace(s[0]) then TrimStart(s[1..]) else s
  }

  /** What `TrimStart` drops is whitespace. */
  lemma {:induction false} TrimStartDropsWhitespace(s: string)
    ensures forall i :: 0 <= i < |s| - |TrimStart(s)| ==> IsWhitespace(s[i])
  {
    if s != [] && IsWhitespace(s[0]) {
      TrimStartDropsWhitespace(s[1..]);
      forall i | 1 <= i < |s| - |TrimStart(s)|
        ensures IsWhitespace(s[i])
      {
        assert s[i] == s[1..][i - 1];
      }
    }
  }

  /** Drops the trailing whitespace. */
  function TrimEnd(s: string): (r: string)
    ensures |r| <= |s| && r == s[..|r|]
    ensures r == [] || !IsWhitespace(r[|r| - 1])
  {
    if s != [] && IsWhitespace(s[|s| - 1]) then TrimEnd(s[..|s| - 1]) else s
  }

  /** What `TrimEnd` drops is whitespace. */
  lemma {:induction false} TrimEndDropsWhitespace(s: string)
    ensures forall i :: |TrimEnd(s)| <= i < |s| ==> IsWhitespace(s[i])
  {
    if s != [] && IsWhitespace(s[|s| - 1]) {
      TrimEndDropsWhitespace(s[..|s| - 1]);
      forall i | |TrimEnd(s)| <= i < |s| - 1
        ensures IsWhitespace(s[i])
      {
        assert s[i] == s[..|s| - 1][i];
      }
    }
  }

  /** `trim()`: drops the leading whitespace, then the trailing whitespace. */
  function Trim(s: string): (r: string)
    ensures |r| <= |s|
    ensures r == [] || (!IsWhitespace(r[0]) && !IsWhitespace(r[|r| - 1]))
  {
    TrimEnd(TrimStart(s))
  }

  /** Whitespace after position |r| of the suffix `t` of `s` is whitespace of `s` itself. */
  lemma TrailingWhitespace(s: string, t: string, r: string)
    requires |t| <= |s| && t == s[|s| - |t|..] && |r| <= |t|
    requires forall j :: |r| <= j < |t| ==> IsWhitespace(t[j])
    ensures forall i :: |s| - |t| + |r| <= i < |s| ==> IsWhitespace(s[i])
  {
    forall i | |s| - |t| + |r| <= i < |s|
      ensures IsWhitespace(s[i])
    {
      assert s[i] == t[i - (|s| - |t|)];
    }
  }

  /** A prefix `r` of a suffix `t` of `s` is the slice of `s` after the part `t` drops. */
  lemma SuffixPrefix(s: string, t: string, r: string)
    requires |t| <= |s| && t == s[|s| - |t|..]
    requires |r| <= |t| && r == t[..|r|]
    ensures forall j :: 0 <= j < |r| ==> r[j] == s[|s| - |t| + j]
  {
    forall j | 0 <= j < |r|
      ensures r[j] == s[|s| - |t| + j]
    {
      assert r[j] == t[j];
    }
  }

  /** The trimmed value is the middle of `s`, after its h leading characters. */
  lemma {:induction false} TrimKeepsMiddle(s: string)
    ensures var h, r := |s| - |TrimStart(s)|, Trim(s);
      h + |r| <= |s| && forall j :: 0 <= j < |r| ==> r[j] == s[h + j]
  {
    SuffixPrefix(s, TrimStart(s), Trim(s));
  }

  /** Everything before and after the trimmed middle is whitespace. */
  lemma TrimDropsOnlyWhitespace(s: string)
    ensures var h, r := |s| - |TrimStart(s)|, Trim(s);
      (forall i :: 0 <= i < h ==> IsWhitespace(s[i])) &&
      (forall i :: h + |r| <= i < |s| ==> IsWhitespace(s[i]))
  {
    TrimStartDropsWhitespace(s);
    TrimEndDropsWhitespace(TrimStart(s));
    TrailingWhitespace(s, TrimStart(s), Trim(s));
  }

  /** The rule `notEmpty()`, then `trim()`, then `isLength({ min, max })`. */
  predicate TextRuleHolds(field: Option<string>, min: nat, max: nat) {
    FieldText(field) != "" && min <= |Trim(FieldText(field))| <= max
  }

  /** The errors of one text chain: the `notEmpty` message on the raw value, then the length message
      on the trimmed value. */
  function TextRuleErrors(field: Option<string>, min: nat, max: nat, required: FieldError, length: FieldError)
    : (errs: seq<FieldError>)
    requires min > 0
    ensures errs == [] <==> TextRuleHolds(field, min, max)
    ensures forall e :: e in errs ==> e == required || e == length
    ensures required != length ==> (required in errs <==> FieldText(field) == "")
    ensures length in errs <==> !(min <= |Trim(FieldText(field))| <= max)
    ensures FieldText(field) == "" ==> errs == [required, length]
  {
    (if FieldText(field) == "" then [required] else []) +
    (if min <= |Trim(FieldText(field))| <= max then [] else [length])
  }

  predicate RatingRuleHolds(rating: RatingField) {
    rating.Number? && LowestRating <= rating.value <= HighestRating
  }

  /** The rating chain: `notEmpty()`, then `isFloat({ min: 1, max: 5 })`. */
  function RatingErrors(rating: RatingField): (errs: seq<FieldError>)
    ensures errs == [] <==> RatingRuleHolds(rating)
    ensures forall e :: e in errs ==> e == RatingRequired || e == RatingRange
    ensures RatingRequired in errs <==> rating.Blank?
    ensures RatingRange in errs <==> !RatingRuleHolds(rating)
    ensures rating.Blank? ==> errs == [RatingRequired, RatingRange]
  {
    match rating
    case Blank => [RatingRequired, RatingRange]
    case NotANumber => [RatingRange]
    case Number(v) => if LowestRating <= v <= HighestRating then [] else [RatingRange]
  }

  /** The errors of the three chains, in rule order: author, rating, comment. */
  function ReviewErrors(body: ReviewBody): (errs: seq<FieldError>)
    ensures errs == [] <==>
      TextRuleHolds(body.author, MinAuthorLength, MaxAuthorLength) &&
      RatingRuleHolds(body.rating) &&
      TextRuleHolds(body.comment, MinCommentLength, MaxCommentLength)
  {
    TextRuleErrors(body.author, MinAuthorLength, MaxAuthorLength, AuthorRequired, AuthorLength) +
    RatingErrors(body.rating) +
    TextRuleErrors(body.comment, MinCommentLength, MaxCommentLength, CommentRequired, CommentLength)
  }

  /** Every error the chains report is on the author, rating or comment path. */
  lemma ReviewErrorsNameTheirField(body: ReviewBody)
    ensures forall e :: e in ReviewErrors(body) ==> e.path == "author" || e.path == "rating" || e.path == "comment"
  {
    var author := TextRuleErrors(body.author, MinAuthorLength, MaxAuthorLength, AuthorRequired, AuthorLength);
    var rating := RatingErrors(body.rating);
    var comment := TextRuleErrors(body.comment, MinCommentLength, MaxCommentLength, CommentRequired, CommentLength);
    assert ReviewErrors(body) == author + rating + comment;
    forall e: FieldError | e in author + rating + comment
      ensures e.path == "author" || e.path == "rating" || e.path == "comment"
    {
      if e in author {
        assert e.path == AuthorRequired.path;
      } else if e in rating {
        assert e.path == RatingRequired.path;
      } else {
        assert e in comment;
        assert e.path == CommentRequired.path;
      }
    }
  }

  /** `validateReview` followed by `validationResult(req)`: the sanitised input, or the error list
      in rule order. */
  function ValidateReview(body: ReviewBody): (r: Result<ReviewInput, seq<FieldError>>)
    ensures r.Success? <==>
      TextRuleHolds(body.author, MinAuthorLength, MaxAuthorLength) &&
      RatingRuleHolds(body.rating) &&
      TextRuleHolds(body.comment, MinCommentLength, MaxCommentLength)
    ensures r.Success? ==>
      body.author.Some? && body.comment.Some? && body.rating.Number? &&
      r.value == ReviewInput(Trim(body.author.value), body.rating.value, Trim(body.comment.value))
    ensures r.Success? ==>
      MinAuthorLength <= |r.value.author| <= MaxAuthorLength &&
      LowestRating <= r.value.rating <= HighestRating &&
      MinCommentLength <= |r.value.comment| <= MaxCommentLength
    ensures r.Failure? ==> r.error != [] && r.error == ReviewErrors(body)
  {
    var errors := ReviewErrors(body);
    if errors == [] then
      Success(ReviewInput(Trim(FieldText(body.author)), body.rating.value, Trim(FieldText(body.comment))))
    else
      Failure(errors)
  }

  /** Every error of a rejected body is on one of the three fields. */
  lemma ErrorsNameTheirField(body: ReviewBody)
    requires ValidateReview(body).Failure?
    ensures forall e :: e in ValidateReview(body).error ==> e.path == "author" || e.path == "rating" || e.path == "comment"
  {
    ReviewErrorsNameTheirField(body);
  }

  /** A body missing any of the three fields is rejected; the update route carries the same rules,
      so an update must resend all three. */
  lemma MissingFieldRejected(body: ReviewBody)
    requires body.author.None? || body.rating.Blank? || body.comment.None?
    ensures ValidateReview(body).Failure?
  {
  }

  /** A value of whitespace only passes `notEmpty` but fails the length rule once trimmed. */
  lemma WhitespaceOnlyAuthor(s: string)
    requires s != "" && forall i :: 0 <= i < |s| ==> IsWhitespace(s[i])
    ensures Trim(s) == ""
    ensures TextRuleErrors(Some(s), MinAuthorLength, MaxAuthorLength, AuthorRequired, AuthorLength) == [AuthorLength]
  {
    TrimKeepsMiddle(s);
  }

  /** Trimming twice changes nothing more. */
  lemma TrimIdempotent(s: string)
    ensures Trim(Trim(s)) == Trim(s)
  {
    var t := Trim(s);
    assert TrimStart(t) == t;
    assert TrimEnd(t) == t;
  }
}
