/**
 * The Yup schemas the game forms declare, as data: each field has an ordered chain of rules,
 * every rule is tried, and Formik keeps the message of the first rule that fails, so a field
 * carries at most one error. A form is valid when the error map is empty.
 */
module Validation {
  import opened Wrappers
  import opened Catalog

  /**
   * One link of a Yup string chain. `LowerOneOf` stands for both forms the schemas use:
   * a custom test `value && allowed.includes(value.toLowerCase())` and a lower-casing
   * `transform` followed by `oneOf`; on strings both fail exactly when the lower-cased value
   * is not allowed (the empty string is never allowed).
   */
  datatype Rule =
    | Required(message: string)
    | MinLength(bound: nat, message: string)
    | MaxLength(bound: nat, message: string)
    | LowerOneOf(allowed: set<string>, message: string)
    | Url(message: string)

  // The messages both game schemas use.
  const TITLE_REQUIRED := "Title is required"
  const RATING_REQUIRED := "Rating is required"
  const CONSOLE_REQUIRED := "Console is required"
  const GENRE_REQUIRED := "Genre is required"
  const IMAGE_REQUIRED := "Image URL is required"
  const IMAGE_INVALID := "Invalid URL"

  /** The "required" message of each field. */
  function RequiredMessage(f: Field): string {
    match f
    case Title => TITLE_REQUIRED
    case Rating => RATING_REQUIRED
    case Console => CONSOLE_REQUIRED
    case Genre => GENRE_REQUIRED
    case Image => IMAGE_REQUIRED
  }

  /** `toLowerCase` on one character, restricted to ASCII. */
  function LowerChar(c: char): char {
    if 'A' <= c <= 'Z' then (c as int + 32) as char else c
  }

  function Lower(s: string): (r: string)
    ensures |r| == |s|
    ensures forall i :: 0 <= i < |s| ==> r[i] == LowerChar(s[i])
  {
    if s == [] then [] else [LowerChar(s[0])] + Lower(s[1..])
  }

  /** Lower-casing twice is lower-casing once, so a rule that lower-cases first ignores case. */
  lemma LowerIdempotent(s: string)
    ensures Lower(Lower(s)) == Lower(s)
  {
    assert forall i :: 0 <= i < |s| ==> Lower(Lower(s))[i] == Lower(s)[i];
  }

  /**
   * JavaScript's `.length`, which Yup's `min` and `max` compare: UTF-16 code units, so a
   * character outside the Basic Multilingual Plane (an emoji, say) counts twice.
   */
  function Utf16Length(s: string): (n: nat)
    ensures |s| <= n <= 2 * |s|
  {
    if s == [] then 0 else (if s[0] as int >= 0x10000 then 2 else 1) + Utf16Length(s[1..])
  }

  /** Lengths add up over concatenation, as `.length` does. */
  lemma {:induction false} Utf16LengthAppend(a: string, b: string)
    ensures Utf16Length(a + b) == Utf16Length(a) + Utf16Length(b)
  {
    if a == [] {
      assert a + b == b;
    } else {
      assert (a + b)[0] == a[0] && (a + b)[1..] == a[1..] + b;
      Utf16LengthAppend(a[1..], b);
    }
  }

  /** On text inside the Basic Multilingual Plane, `.length` is the number of characters. */
  lemma {:induction false} Utf16LengthBmp(s: string)
    requires forall i :: 0 <= i < |s| ==> s[i] as int < 0x10000
    ensures Utf16Length(s) == |s|
  {
    if s != [] {
      Utf16LengthBmp(s[1..]);
    }
  }

  /** Outside the Basic Multilingual Plane every character is a surrogate pair: two units each. */
  lemma {:induction false} Utf16LengthAstral(s: string)
    requires forall i :: 0 <= i < |s| ==> s[i] as int >= 0x10000
    ensures Utf16Length(s) == 2 * |s|
  {
    if s != [] {
      Utf16LengthAstral(s[1..]);
    }
  }

  /**
   * Whether `value` passes one rule. Formik hands Yup `undefined` for "", so `Required` fails
   * on "", while `min`, `max` and `url` skip it; `min`/`max` otherwise compare `.length`, and
   * the URL test defers to `isUrl`, Yup's URL pattern, which this model takes as given. On ""
   * the two forms of `LowerOneOf` differ (the custom test fails, `oneOf` skips), but both
   * schemas put `Required` ahead of it, so "" never reaches it; it is modelled as failing.
   */
  predicate Passes(rule: Rule, value: string, isUrl: string -> bool) {
    match rule
    case Required(_) => value != ""
    case MinLength(n, _) => value == "" || Utf16Length(value) >= n
    case MaxLength(n, _) => value == "" || Utf16Length(value) <= n
    case LowerOneOf(allowed, _) => Lower(value) in allowed
    case Url(_) => value == "" || isUrl(value)
  }

  /** Every rule of the chain passes. */
  predicate AllPass(rules: seq<Rule>, value: string, isUrl: string -> bool) {
    forall i :: 0 <= i < |rules| ==> Passes(rules[i], value, isUrl)
  }

  /** Position of the first failing rule in the chain, |rules| when none fails. */
  function FirstFailure(rules: seq<Rule>, value: string, isUrl: string -> bool): (k: nat)
    ensures k <= |rules|
    ensures forall j :: 0 <= j < k ==> Passes(rules[j], value, isUrl)
    ensures k < |rules| ==> !Passes(rules[k], value, isUrl)
  {
    if rules == [] then 0
    else if !Passes(rules[0], value, isUrl) then 0
    else 1 + FirstFailure(rules[1..], value, isUrl)
  }

  /** The message a field shows: that of its first failing rule, if any rule fails. */
  function FirstError(rules: seq<Rule>, value: string, isUrl: string -> bool): (r: Option<string>)
    ensures r.None? <==> AllPass(rules, value, isUrl)
    ensures r.Some? ==> exists k :: 0 <= k < |rules| && r.value == rules[k].message && !Passes(rules[k], value, isUrl)
  {
    var k := FirstFailure(rules, value, isUrl);
    if k < |rules| then Some(rules[k].message) else None
  }

  /** A `Yup.object({...})` over the five game fields: one rule chain per field. */
  datatype Schema = Schema(title: seq<Rule>, rating: seq<Rule>, console: seq<Rule>, genre: seq<Rule>, image: seq<Rule>)

  function RulesFor(schema: Schema, f: Field): seq<Rule> {
    match f
    case Title => schema.title
    case Rating => schema.rating
    case Console => schema.console
    case Genre => schema.genre
    case Image => schema.image
  }

  /** A rule that looks at a value only through its presence or its lower-case form. */
  predicate CaseBlind(rule: Rule) {
    rule.Required? || rule.LowerOneOf?
  }

  /** A chain of case-blind rules gives a value and its lower-case form the same verdict. */
  lemma {:induction false} FirstErrorIgnoresCase(rules: seq<Rule>, value: string, isUrl: string -> bool)
    requires forall i :: 0 <= i < |rules| ==> CaseBlind(rules[i])
    ensures FirstError(rules, value, isUrl) == FirstError(rules, Lower(value), isUrl)
  {
    if rules != [] {
      LowerIdempotent(value);
      assert Passes(rules[0], value, isUrl) == Passes(rules[0], Lower(value), isUrl);
      FirstErrorIgnoresCase(rules[1..], value, isUrl);
      assert rules == [rules[0]] + rules[1..];
      FirstErrorCons(rules[0], rules[1..], value, isUrl);
      FirstErrorCons(rules[0], rules[1..], Lower(value), isUrl);
    }
  }

  /** The message reported is that of the earliest failing rule: later failures never win. */
  lemma FirstErrorIsEarliest(rules: seq<Rule>, value: string, isUrl: string -> bool, k: nat)
    requires k < |rules| && !Passes(rules[k], value, isUrl)
    requires forall j :: 0 <= j < k ==> Passes(rules[j], value, isUrl)
    ensures FirstError(rules, value, isUrl) == Some(rules[k].message)
  {
    var m := FirstFailure(rules, value, isUrl);
    assert m <= k;
    assert !(m < k);
  }

  /** Unfolding one rule of a chain: a failing head decides, a passing head defers to the rest. */
  lemma FirstErrorCons(rule: Rule, rest: seq<Rule>, value: string, isUrl: string -> bool)
    ensures FirstError([rule] + rest, value, isUrl) ==
      if !Passes(rule, value, isUrl) then Some(rule.message) else FirstError(rest, value, isUrl)
  {
    var rules := [rule] + rest;
    assert rules[0] == rule && rules[1..] == rest;
    if Passes(rule, value, isUrl) {
      var k := FirstFailure(rest, value, isUrl);
      assert FirstFailure(rules, value, isUrl) == k + 1;
      if k < |rest| {
        assert rules[k + 1] == rest[k];
      }
    }
  }

  /** The verdict of field `f` of `v` under `schema`. */
  function FieldError(schema: Schema, v: GameValues, f: Field, isUrl: string -> bool): Option<string> {
    FirstError(RulesFor(schema, f), FieldValue(v, f), isUrl)
  }

  /**
   * The error map of a whole form under a schema: a field has an entry exactly when its chain
   * fails, and the entry is the message of the first rule that fails.
   */
  function Validate(schema: Schema, v: GameValues, isUrl: string -> bool): (errors: map<Field, string>)
    ensures forall f :: FieldError(schema, v, f, isUrl) == if f in errors then Some(errors[f]) else None
  {
    var errors := map f | f in ALL_FIELDS && FieldError(schema, v, f, isUrl).Some? :: FieldError(schema, v, f, isUrl).value;
    assert forall f :: FieldError(schema, v, f, isUrl) == if f in errors then Some(errors[f]) else None by {
      forall f ensures FieldError(schema, v, f, isUrl) == if f in errors then Some(errors[f]) else None {
        AllFieldsComplete(f);
      }
    }
    errors
  }

  /** Two forms whose fields get the same verdicts have the same error map. */
  lemma ValidateSameVerdicts(schema: Schema, v: GameValues, w: GameValues, isUrl: string -> bool)
    requires forall f :: FieldError(schema, v, f, isUrl) == FieldError(schema, w, f, isUrl)
    ensures Validate(schema, v, isUrl) == Validate(schema, w, isUrl)
  {
    var a, b := Validate(schema, v, isUrl), Validate(schema, w, isUrl);
    forall f
      ensures (f in a <==> f in b) && (f in a ==> a[f] == b[f])
    {
      assert FieldError(schema, v, f, isUrl) == FieldError(schema, w, f, isUrl);
    }
    assert a.Keys == b.Keys;
  }

  /** Changing one field in a way that keeps its verdict keeps the whole error map. */
  lemma ValidateSameVerdictAt(schema: Schema, v: GameValues, w: GameValues, f0: Field, isUrl: string -> bool)
    requires forall f :: f != f0 ==> FieldValue(v, f) == FieldValue(w, f)
    requires FieldError(schema, v, f0, isUrl) == FieldError(schema, w, f0, isUrl)
    ensures Validate(schema, v, isUrl) == Validate(schema, w, isUrl)
  {
    forall f
      ensures FieldError(schema, v, f, isUrl) == FieldError(schema, w, f, isUrl)
    {
      if f != f0 {
        assert FieldValue(v, f) == FieldValue(w, f);
      }
    }
    ValidateSameVerdicts(schema, v, w, isUrl);
  }

  /**
   * `touched.f && errors.f ? <div>{errors.f}</div> : null`, and Formik's <ErrorMessage>:
   * the message a field displays, if any.
   */
  function VisibleError(errors: map<Field, string>, touched: set<Field>, f: Field): (shown: Option<string>)
    ensures shown.Some? <==> f in touched && f in errors
    ensures shown.Some? ==> shown.value == errors[f]
  {
    if f in touched && f in errors then Some(errors[f]) else None
  }
}
