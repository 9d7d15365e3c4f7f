/** The server-side helpers of utils/validation.js: the input sanitiser and the
    image validator. Neither is wired into a request path of the application;
    both are modelled as the standalone functions they are. */
module Validation {
  import opened Common

  // ---------------------------------------------------------------------------
  // sanitizeInput

  /** A request-body value: a string, or anything else (an array, an object,
      `undefined`), which the sanitiser passes through untouched. */
  datatype BodyValue = Text(s: string) | NonText(token: nat)

  /** No `<` is followed, anywhere later, by a `>`: no `<…>` span is left. */
  predicate NoTagSpan(s: string) {
    forall i :: 0 <= i < |s| && s[i] == '<' ==> '>' !in s[i + 1..]
  }

  /** `.replace(/<[^>]*>/g, '')`: scanning left to right, a `<` and everything
      up to the first `>` after it are deleted; a `<` with no `>` after it stays. */
  function StripTags(s: string): string
    decreases |s|
  {
    if s == [] then []
    else if s[0] == '<' && '>' in s[1..] then
      StripTags(s[1 + IndexOf(s[1..], '>') + 1..])
    else
      [s[0]] + StripTags(s[1..])
  }

  /** Stripping only deletes characters, and no `<…>` span is left. */
  lemma {:induction false} StripTagsDeletes(s: string)
    ensures IsSubsequence(StripTags(s), s)
    ensures NoTagSpan(StripTags(s))
    decreases |s|
  {
    if s == [] {
    } else if s[0] == '<' && '>' in s[1..] {
      var close := 1 + IndexOf(s[1..], '>');
      StripTagsDeletes(s[close + 1..]);
      SubsequenceOfSuffix(StripTags(s[close + 1..]), s, close + 1);
    } else {
      StripTagsDeletes(s[1..]);
      KeepFirst(s, StripTags(s[1..]));
    }
  }

  /** Keeping the first character in front of a span-free subsequence of the
      rest: a kept `<` has no `>` after it in the input, hence none in the result. */
  lemma KeepFirst(s: string, rest: string)
    requires s != [] && IsSubsequence(rest, s[1..]) && NoTagSpan(rest)
    requires s[0] == '<' ==> '>' !in s[1..]
    ensures IsSubsequence([s[0]] + rest, s) && NoTagSpan([s[0]] + rest)
  {
    SubsequenceCons(s[0], rest, s[1..]);
    assert [s[0]] + s[1..] == s;
    if s[0] == '<' {
      forall c | c in rest ensures c != '>' {
        SubsequenceMembers(rest, s[1..], c);
      }
    }
    NoTagSpanCons(s[0], rest);
  }

  lemma NoTagSpanCons(c: char, s: string)
    requires NoTagSpan(s)
    requires c == '<' ==> '>' !in s
    ensures NoTagSpan([c] + s)
  {
    var t := [c] + s;
    forall i | 0 <= i < |t| && t[i] == '<' ensures '>' !in t[i + 1..] {
      if i > 0 {
        assert t[i + 1..] == s[i..];
      } else {
        assert t[1..] == s;
      }
    }
  }

  /** Deleting characters never creates a `<…>` span. */
  lemma {:induction false} NoTagSpanOfSubsequence(a: string, b: string)
    requires IsSubsequence(a, b) && NoTagSpan(b)
    ensures NoTagSpan(a)
    decreases |b|
  {
    if a != [] {
      assert NoTagSpan(b[1..]) by {
        forall i | 0 <= i < |b[1..]| && b[1..][i] == '<' ensures '>' !in b[1..][i + 1..] {
          assert b[1..][i + 1..] == b[i + 2..];
        }
      }
      if a[0] == b[0] && IsSubsequence(a[1..], b[1..]) {
        NoTagSpanOfSubsequence(a[1..], b[1..]);
        if a[0] == '<' {
          forall c | c in a[1..] ensures c != '>' {
            SubsequenceMembers(a[1..], b[1..], c);
          }
        }
        NoTagSpanCons(a[0], a[1..]);
        assert [a[0]] + a[1..] == a;
      } else {
        NoTagSpanOfSubsequence(a, b[1..]);
      }
    }
  }

  const JsProtocol := "javascript:"

  /** `s` begins with `p`, letters compared without regard to ASCII case (the `i` flag). */
  predicate StartsWithIgnoringCase(s: string, p: string)
    ensures StartsWithIgnoringCase(s, p) ==> |p| <= |s|
  {
    p == [] || (s != [] && AsciiLower(s[0]) == AsciiLower(p[0]) && StartsWithIgnoringCase(s[1..], p[1..]))
  }

  /** `.replace(/javascript:/gi, '')`: left to right, each non-overlapping
      occurrence in any letter case is deleted, in a single pass. */
  function RemoveJsProtocol(s: string): string
    decreases |s|
  {
    if s == [] then []
    else if StartsWithIgnoringCase(s, JsProtocol) then RemoveJsProtocol(s[|JsProtocol|..])
    else [s[0]] + RemoveJsProtocol(s[1..])
  }

  /** Removing `javascript:` only deletes characters. */
  lemma {:induction false} RemoveJsProtocolDeletes(s: string)
    ensures IsSubsequence(RemoveJsProtocol(s), s)
    decreases |s|
  {
    if s == [] {
    } else if StartsWithIgnoringCase(s, JsProtocol) {
      RemoveJsProtocolDeletes(s[|JsProtocol|..]);
      SubsequenceOfSuffix(RemoveJsProtocol(s[|JsProtocol|..]), s, |JsProtocol|);
    } else {
      RemoveJsProtocolDeletes(s[1..]);
      SubsequenceCons(s[0], RemoveJsProtocol(s[1..]), s[1..]);
      assert [s[0]] + s[1..] == s;
    }
  }

  /** Length of the leading run of `\w` characters. */
  function WordRun(s: string): (n: nat)
    ensures n <= |s|
    ensures forall k :: 0 <= k < n ==> IsWordChar(s[k])
    ensures n < |s| ==> !IsWordChar(s[n])
  {
    if s != [] && IsWordChar(s[0]) then 1 + WordRun(s[1..]) else 0
  }

  /** Length of the match of `/on\w+="[^"]*"/i` at the start of `s`, or 0 when
      it does not match there. `\w+` is greedy and `=` is not a word character,
      so the only candidate is the whole word run. */
  function HandlerLength(s: string): (n: nat)
    ensures n <= |s|
    ensures n > 0 ==> n >= 6 && AsciiLower(s[0]) == 'o' && AsciiLower(s[1]) == 'n' && s[n - 1] == '"'
  {
    if |s| < 2 || AsciiLower(s[0]) != 'o' || AsciiLower(s[1]) != 'n' then 0
    else
      var eq := 2 + WordRun(s[2..]);
      if eq == 2 || eq + 1 >= |s| || s[eq] != '=' || s[eq + 1] != '"' || '"' !in s[eq + 2..] then 0
      else eq + 2 + IndexOf(s[eq + 2..], '"') + 1
  }

  /** `.replace(/on\w+="[^"]*"/gi, '')`: left to right, each inline event
      handler attribute with a double-quoted value is deleted. */
  function RemoveHandlers(s: string): string
    decreases |s|
  {
    if s == [] then []
    else if HandlerLength(s) > 0 then RemoveHandlers(s[HandlerLength(s)..])
    else [s[0]] + RemoveHandlers(s[1..])
  }

  /** Removing handlers only deletes characters. */
  lemma {:induction false} RemoveHandlersDeletes(s: string)
    ensures IsSubsequence(RemoveHandlers(s), s)
    decreases |s|
  {
    if s == [] {
    } else if HandlerLength(s) > 0 {
      var n := HandlerLength(s);
      RemoveHandlersDeletes(s[n..]);
      SubsequenceOfSuffix(RemoveHandlers(s[n..]), s, n);
    } else {
      RemoveHandlersDeletes(s[1..]);
      SubsequenceCons(s[0], RemoveHandlers(s[1..]), s[1..]);
      assert [s[0]] + s[1..] == s;
    }
  }

  /** The string chain of `sanitizeInput`: strip tags, drop `javascript:`, drop
      event handlers, trim. */
  function Sanitize(s: string): (r: string)
    ensures r == [] || (!IsJsSpace(r[0]) && !IsJsSpace(r[|r| - 1]))
  {
    Trim(RemoveHandlers(RemoveJsProtocol(StripTags(s))))
  }

  /** Every step of the sanitiser only deletes, so the result is a subsequence
      of the input, no longer than it, and no `<…>` span survives. */
  lemma SanitizeDeletes(s: string)
    ensures IsSubsequence(Sanitize(s), s)
    ensures |Sanitize(s)| <= |s|
    ensures NoTagSpan(Sanitize(s))
  {
    var stripped := StripTags(s);
    var noProtocol := RemoveJsProtocol(stripped);
    var noHandlers := RemoveHandlers(noProtocol);
    var r := Trim(noHandlers);
    StripTagsDeletes(s);
    RemoveJsProtocolDeletes(stripped);
    RemoveHandlersDeletes(noProtocol);
    TrimDeletes(noHandlers);
    SubsequenceTrans(noHandlers, noProtocol, stripped);
    SubsequenceTrans(r, noHandlers, stripped);
    NoTagSpanOfSubsequence(r, stripped);
    SubsequenceTrans(r, stripped, s);
    SubsequenceLength(r, s);
  }

  /** `sanitizeInput(input)`: strings are sanitised, anything else is returned as it is. */
  function SanitizeInput(input: BodyValue): (r: BodyValue)
    ensures input.NonText? ==> r == input
    ensures input.Text? ==> r.Text? && IsSubsequence(r.s, input.s) && NoTagSpan(r.s)
    // a string comes back as the sanitiser's result: trimmed, and unchanged exactly when clean
    ensures input.Text? ==> r == Text(Sanitize(input.s))
    ensures input.Text? ==> (r.s == [] || (!IsJsSpace(r.s[0]) && !IsJsSpace(r.s[|r.s| - 1])))
    ensures input.Text? ==> (r == input <==> Clean(input.s))
  {
    match input
    case Text(s) => SanitizeDeletes(s); SanitizeFixedIffClean(s); Text(Sanitize(s))
    case NonText(_) => input
  }

  /** No position starts `javascript:` in any letter case. */
  predicate NoJsProtocol(s: string) {
    forall i :: 0 <= i < |s| ==> !StartsWithIgnoringCase(s[i..], JsProtocol)
  }

  /** No position starts an `on…="…"` handler. */
  predicate NoHandler(s: string) {
    forall i :: 0 <= i < |s| ==> HandlerLength(s[i..]) == 0
  }

  /** A string the sanitiser has nothing to remove from. */
  predicate Clean(s: string) {
    NoTagSpan(s) && NoJsProtocol(s) && NoHandler(s) && (s == [] || (!IsJsSpace(s[0]) && !IsJsSpace(s[|s| - 1])))
  }

  lemma {:induction false} StripTagsKeepsClean(s: string)
    requires NoTagSpan(s)
    ensures StripTags(s) == s
    decreases |s|
  {
    if s != [] {
      assert NoTagSpan(s[1..]) by {
        forall i | 0 <= i < |s[1..]| && s[1..][i] == '<' ensures '>' !in s[1..][i + 1..] {
          assert s[1..][i + 1..] == s[i + 2..];
        }
      }
      StripTagsKeepsClean(s[1..]);
      assert [s[0]] + s[1..] == s;
    }
  }

  lemma {:induction false} RemoveJsProtocolKeepsClean(s: string)
    requires NoJsProtocol(s)
    ensures RemoveJsProtocol(s) == s
    decreases |s|
  {
    if s != [] {
      assert !StartsWithIgnoringCase(s[0..], JsProtocol);
      assert s[0..] == s;
      assert NoJsProtocol(s[1..]) by {
        forall i | 0 <= i < |s[1..]| ensures !StartsWithIgnoringCase(s[1..][i..], JsProtocol) {
          assert s[1..][i..] == s[i + 1..];
        }
      }
      RemoveJsProtocolKeepsClean(s[1..]);
      assert [s[0]] + s[1..] == s;
    }
  }

  lemma {:induction false} RemoveHandlersKeepsClean(s: string)
    requires NoHandler(s)
    ensures RemoveHandlers(s) == s
    decreases |s|
  {
    if s != [] {
      assert HandlerLength(s[0..]) == 0;
      assert s[0..] == s;
      assert NoHandler(s[1..]) by {
        forall i | 0 <= i < |s[1..]| ensures HandlerLength(s[1..][i..]) == 0 {
          assert s[1..][i..] == s[i + 1..];
        }
      }
      RemoveHandlersKeepsClean(s[1..]);
      assert [s[0]] + s[1..] == s;
    }
  }

  /** Conversely, a string that `RemoveJsProtocol` leaves unchanged has no
      `javascript:` in it: a string that contains one is always changed. The
      single pass can still leave an occurrence behind, as
      `RemoveJsProtocolLeavesOne` shows. */
  lemma {:induction false} RemoveJsProtocolChangesDirty(s: string)
    requires RemoveJsProtocol(s) == s
    ensures NoJsProtocol(s)
    decreases |s|
  {
    if s != [] {
      if StartsWithIgnoringCase(s, JsProtocol) {
        // the rest is what follows the match, so the result would be shorter than `s`
        RemoveJsProtocolDeletes(s[|JsProtocol|..]);
        SubsequenceLength(RemoveJsProtocol(s[|JsProtocol|..]), s[|JsProtocol|..]);
        assert false;
      }
      assert RemoveJsProtocol(s[1..]) == s[1..] by {
        assert ([s[0]] + RemoveJsProtocol(s[1..]))[1..] == RemoveJsProtocol(s[1..]);
      }
      RemoveJsProtocolChangesDirty(s[1..]);
      forall i | 0 <= i < |s| ensures !StartsWithIgnoringCase(s[i..], JsProtocol) {
        if i == 0 {
          assert s[0..] == s;
        } else {
          assert s[i..] == s[1..][i - 1..];
        }
      }
    }
  }

  /** Every string starts with itself, whatever follows. */
  lemma {:induction false} StartsWithItself(p: string, rest: string)
    ensures StartsWithIgnoringCase(p + rest, p)
    decreases |p|
  {
    if p != [] {
      assert (p + rest)[1..] == p[1..] + rest;
      StartsWithItself(p[1..], rest);
    }
  }

  /** A case-insensitive prefix agrees with the string at each of its positions. */
  lemma {:induction false} StartsWithAt(s: string, p: string, i: nat)
    requires StartsWithIgnoringCase(s, p) && i < |p|
    ensures AsciiLower(s[i]) == AsciiLower(p[i])
    decreases i
  {
    if i > 0 {
      StartsWithAt(s[1..], p[1..], i - 1);
    }
  }

  /** One pass is not enough: deleting an inner `javascript:` joins the
      characters around it into a new one, which the pass has already gone by.
      So `sanitizeInput` is not idempotent. */
  lemma RemoveJsProtocolLeavesOne(s: string)
    requires s == "java" + JsProtocol + "script:"
    ensures RemoveJsProtocol(s) == JsProtocol
    ensures !NoJsProtocol(RemoveJsProtocol(s))
  {
    var tail := "script:";
    var t := JsProtocol + tail;
    assert s[4..] == t;
    StartsWithItself(JsProtocol, tail);
    assert t[|JsProtocol|..] == tail;
    RemoveJsProtocolKeepsClean(tail);
    assert RemoveJsProtocol(t) == tail;
    assert !StartsWithIgnoringCase(s[3..], JsProtocol) && s[3..][1..] == t;
    assert !StartsWithIgnoringCase(s[2..], JsProtocol) && s[2..][1..] == s[3..];
    assert !StartsWithIgnoringCase(s[1..], JsProtocol) && s[1..][1..] == s[2..];
    if StartsWithIgnoringCase(s, JsProtocol) {
      StartsWithAt(s, JsProtocol, 4);
      assert false;
    }
    assert RemoveJsProtocol(s[3..]) == [s[3]] + tail;
    assert RemoveJsProtocol(s[2..]) == [s[2]] + RemoveJsProtocol(s[3..]);
    assert RemoveJsProtocol(s[1..]) == [s[1]] + RemoveJsProtocol(s[2..]);
    assert RemoveJsProtocol(s) == [s[0]] + RemoveJsProtocol(s[1..]);
    assert RemoveJsProtocol(s) == JsProtocol;
    StartsWithItself(JsProtocol, []);
    assert JsProtocol + [] == JsProtocol == JsProtocol[0..];
  }

  /** Conversely, a string that `RemoveHandlers` leaves unchanged has no inline
      handler in it: a string that contains one is always changed. The single
      pass can still leave a handler behind. */
  lemma {:induction false} RemoveHandlersChangesDirty(s: string)
    requires RemoveHandlers(s) == s
    ensures NoHandler(s)
    decreases |s|
  {
    if s != [] {
      if HandlerLength(s) > 0 {
        var n := HandlerLength(s);
        RemoveHandlersDeletes(s[n..]);
        SubsequenceLength(RemoveHandlers(s[n..]), s[n..]);
        assert false;
      }
      assert RemoveHandlers(s[1..]) == s[1..] by {
        assert ([s[0]] + RemoveHandlers(s[1..]))[1..] == RemoveHandlers(s[1..]);
      }
      RemoveHandlersChangesDirty(s[1..]);
      forall i | 0 <= i < |s| ensures HandlerLength(s[i..]) == 0 {
        if i == 0 {
          assert s[0..] == s;
        } else {
          assert s[i..] == s[1..][i - 1..];
        }
      }
    }
  }

  /** A string with no `<…>` span, no `javascript:`, no inline handler and no
      surrounding white space comes back unchanged. */
  lemma SanitizeKeepsClean(s: string)
    requires Clean(s)
    ensures Sanitize(s) == s
  {
    StripTagsKeepsClean(s);
    RemoveJsProtocolKeepsClean(s);
    RemoveHandlersKeepsClean(s);
  }

  /** The sanitiser leaves a string unchanged exactly when it is clean: each
      pass that finds something to remove shortens the string. */
  lemma SanitizeFixedIffClean(s: string)
    ensures Sanitize(s) == s <==> Clean(s)
  {
    if Clean(s) {
      SanitizeKeepsClean(s);
    }
    if Sanitize(s) == s {
      var stripped := StripTags(s);
      var noProtocol := RemoveJsProtocol(stripped);
      var noHandlers := RemoveHandlers(noProtocol);
      StripTagsDeletes(s);
      RemoveJsProtocolDeletes(stripped);
      RemoveHandlersDeletes(noProtocol);
      TrimDeletes(noHandlers);
      SubsequenceLength(stripped, s);
      SubsequenceLength(noProtocol, stripped);
      SubsequenceLength(noHandlers, noProtocol);
      SubsequenceLength(Trim(noHandlers), noHandlers);
      SubsequenceOfSameLength(stripped, s);
      SubsequenceOfSameLength(noProtocol, stripped);
      SubsequenceOfSameLength(noHandlers, noProtocol);
      RemoveJsProtocolChangesDirty(s);
      RemoveHandlersChangesDirty(s);
    }
  }

  // ---------------------------------------------------------------------------
  // validateImage

  /** The parts of an uploaded file the validator reads. */
  datatype ImageFile = ImageFile(mimetype: string, size: int)

  const AllowedImageTypes := ["image/jpeg", "image/jpg", "image/png"]
  const MaxImageSize := 2 * 1024 * 1024
  const ImageRequired := "Image is required"
  const ImageTypeError := "Only JPG, JPEG, and PNG images are allowed"
  const ImageSizeError := "Image size must be less than 2MB"

  /** `validateImage(file)`: present, an allowed type, at most 2 MiB; the
      missing file is reported first, then the type, then the size. */
  function ValidateImage(file: Option<ImageFile>): (v: Verdict)
    ensures v.Valid? <==> file.Some? && file.value.mimetype in AllowedImageTypes && file.value.size <= MaxImageSize
    ensures file.None? ==> v == Invalid(ImageRequired)
    ensures file.Some? && file.value.mimetype !in AllowedImageTypes ==> v == Invalid(ImageTypeError)
    ensures file.Some? && file.value.mimetype in AllowedImageTypes && file.value.size > MaxImageSize ==>
      v == Invalid(ImageSizeError)
  {
    match file
    case None => Invalid(ImageRequired)
    case Some(f) =>
      if f.mimetype !in AllowedImageTypes then Invalid(ImageTypeError)
      else if f.size > MaxImageSize then Invalid(ImageSizeError)
      else Valid
  }

  /** The size limit is inclusive: a file of exactly 2 MiB passes, one byte more does not. */
  lemma ImageSizeBoundary(mimetype: string)
    requires mimetype in AllowedImageTypes
    ensures ValidateImage(Some(ImageFile(mimetype, 2097152))) == Valid
    ensures ValidateImage(Some(ImageFile(mimetype, 2097153))) == Invalid(ImageSizeError)
  {
  }
}
