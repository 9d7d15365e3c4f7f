/** The browser-side logic of public/js/script.js that does not touch the
    camera, the canvas or the notification area: file and form validation,
    the validity classes of an input, the camera's facing mode, the
    notification icon, and the `FormUtils` helpers. A DOM input element is a
    class with the two fields these functions read and write. */
module ClientScript {
  import opened Common
  import opened Validation

  // ---------------------------------------------------------------------------
  // validateFile

  /** The parts of a browser `File` the validators read. */
  datatype ClientFile = ClientFile(fileType: string, size: int)

  /** `validateFile(file)`: the type is checked before the size. */
  function ValidateFile(file: ClientFile): (v: Verdict)
    ensures v.Valid? <==> file.fileType in AllowedImageTypes && file.size <= MaxImageSize
    ensures file.fileType !in AllowedImageTypes ==> v == Invalid(ImageTypeError)
    ensures file.fileType in AllowedImageTypes && file.size > MaxImageSize ==> v == Invalid(ImageSizeError)
  {
    if file.fileType !in AllowedImageTypes then Invalid(ImageTypeError)
    else if file.size > MaxImageSize then Invalid(ImageSizeError)
    else Valid
  }

  /** The browser and the server agree on every present file: same verdict,
      same message. */
  lemma ValidateFileAgreesWithServer(file: ClientFile)
    ensures ValidateFile(file) == ValidateImage(Some(ImageFile(file.fileType, file.size)))
  {
    var v := ValidateImage(Some(ImageFile(file.fileType, file.size)));
    if file.fileType !in AllowedImageTypes {
      assert v == Invalid(ImageTypeError);
    } else if file.size > MaxImageSize {
      assert v == Invalid(ImageSizeError);
    }
  }

  // ---------------------------------------------------------------------------
  // validateForm

  /** The raw form values `validateForm` reads: three text inputs, the terms
      checkbox and whether a file is selected. */
  datatype FormInput = FormInput(name: string, email: string, phone: string, terms: bool, hasImage: bool)

  const NameError := "Name must be 4-30 characters and contain only letters"
  const EmailError := "Please provide a valid email address"
  const PhoneError := "Phone number must be exactly 10 digits"
  const TermsError := "You must accept the terms and conditions"
  const ImageMissingError := "Please upload an image"

  /** `/^[a-zA-Z\s]+$/` together with the length bounds 4 to 30. */
  predicate NameOk(name: string) {
    4 <= |name| <= 30 && forall k :: 0 <= k < |name| ==> IsAsciiLetter(name[k]) || IsJsSpace(name[k])
  }

  /** `/^\d{10}$/`. */
  predicate PhoneOk(phone: string) {
    |phone| == 10 && forall k :: 0 <= k < |phone| ==> IsDigit(phone[k])
  }

  /** Every character is in the class `[^\s@]`. */
  predicate NoBlankOrAt(t: string) {
    forall k :: 0 <= k < |t| ==> !IsJsSpace(t[k]) && t[k] != '@'
  }

  /** `/^[^\s@]+@[^\s@]+\.[^\s@]+$/`, read as the regular expression defines
      it: a split into a local part, `@`, a domain part, `.` and a last part,
      all three non-empty and free of white space and `@`. */
  ghost predicate EmailShape(s: string) {
    exists i, j :: 0 < i && i + 1 < j < |s| - 1 && s[i] == '@' && s[j] == '.' &&
      NoBlankOrAt(s[..i]) && NoBlankOrAt(s[i + 1..j]) && NoBlankOrAt(s[j + 1..])
  }

  /** A direct recogniser for the e-mail pattern: the first `@` is not in front,
      nothing around it is white space or another `@`, and a `.` sits strictly
      inside what follows it. */
  predicate EmailOk(s: string) {
    '@' in s &&
    var i := IndexOf(s, '@');
    0 < i && i + 3 < |s| && NoBlankOrAt(s[..i]) && NoBlankOrAt(s[i + 1..]) && '.' in s[i + 2..|s| - 1]
  }

  /** The recogniser accepts exactly the strings the pattern matches. */
  lemma EmailOkMatchesPattern(s: string)
    ensures EmailOk(s) <==> EmailShape(s)
  {
    if EmailOk(s) {
      EmailOkHasShape(s);
    }
    if EmailShape(s) {
      var i, j :| 0 < i && i + 1 < j < |s| - 1 && s[i] == '@' && s[j] == '.' &&
        NoBlankOrAt(s[..i]) && NoBlankOrAt(s[i + 1..j]) && NoBlankOrAt(s[j + 1..]);
      ShapeIsEmailOk(s, i, j);
    }
  }

  lemma EmailOkHasShape(s: string)
    requires EmailOk(s)
    ensures EmailShape(s)
  {
    var i := IndexOf(s, '@');
    var rest := s[i + 1..];
    var j := i + 2 + IndexOf(s[i + 2..|s| - 1], '.');
    assert s[j] == '.';
    assert s[i + 1..j] == rest[..j - i - 1];
    assert s[j + 1..] == rest[j - i..];
    assert NoBlankOrAt(s[i + 1..j]) && NoBlankOrAt(s[j + 1..]);
  }

  lemma ShapeIsEmailOk(s: string, i: nat, j: nat)
    requires 0 < i && i + 1 < j < |s| - 1 && s[i] == '@' && s[j] == '.'
    requires NoBlankOrAt(s[..i]) && NoBlankOrAt(s[i + 1..j]) && NoBlankOrAt(s[j + 1..])
    ensures EmailOk(s)
  {
    assert '@' !in s[..i] by {
      assert forall k :: 0 <= k < i ==> s[..i][k] != '@';
    }
    FirstIndex(s, '@', i);
    var rest := s[i + 1..];
    assert NoBlankOrAt(rest) by {
      forall k | 0 <= k < |rest| ensures !IsJsSpace(rest[k]) && rest[k] != '@' {
        if k < j - i - 1 {
          assert rest[k] == s[i + 1..j][k];
        } else if k > j - i - 1 {
          assert rest[k] == s[j + 1..][k - (j - i)];
        }
      }
    }
    assert s[i + 2..|s| - 1][j - i - 2] == '.';
  }

  /** `IndexOf` finds a position that has no earlier occurrence. */
  lemma FirstIndex(s: string, c: char, i: nat)
    requires i < |s| && s[i] == c && c !in s[..i]
    ensures IndexOf(s, c) == i
  {
  }

  /** The message a check adds: none when it passes. */
  function Failed(passed: bool, message: string): (errors: seq<string>)
    ensures errors == [] <==> passed
    ensures !passed ==> errors == [message]
  {
    if passed then [] else [message]
  }

  /** Every field of the form passes its check. */
  predicate FormPasses(input: FormInput) {
    NameOk(Trim(input.name)) && EmailOk(Trim(input.email)) && PhoneOk(Trim(input.phone)) &&
    input.terms && input.hasImage
  }

  /** The messages of the failing checks, in the order the checks run, on the
      trimmed values. */
  function FormErrors(input: FormInput): (errors: seq<string>)
    ensures |errors| <= 5
    ensures errors == [] <==> FormPasses(input)
  {
    Failed(NameOk(Trim(input.name)), NameError) +
    Failed(EmailOk(Trim(input.email)), EmailError) +
    Failed(PhoneOk(Trim(input.phone)), PhoneError) +
    Failed(input.terms, TermsError) +
    Failed(input.hasImage, ImageMissingError)
  }

  /** `validateForm()`: every check runs, each failure pushes its message and
      clears the flag; the form is valid exactly when nothing was pushed.
      Showing the joined messages is left out. */
  method ValidateForm(input: FormInput) returns (isValid: bool, errors: seq<string>)
    ensures errors == FormErrors(input)
    ensures isValid <==> errors == []
  {
    isValid := true;
    errors := [];
    var name := Trim(input.name);
    var email := Trim(input.email);
    var phone := Trim(input.phone);

    if !NameOk(name) {
      errors := errors + [NameError];
      isValid := false;
    }
    assert errors == Failed(NameOk(name), NameError) && (isValid <==> errors == []);
    if !EmailOk(email) {
      errors := errors + [EmailError];
      isValid := false;
    }
    ghost var afterEmail := Failed(NameOk(name), NameError) + Failed(EmailOk(email), EmailError);
    assert errors == afterEmail && (isValid <==> errors == []);
    if !PhoneOk(phone) {
      errors := errors + [PhoneError];
      isValid := false;
    }
    ghost var afterPhone := afterEmail + Failed(PhoneOk(phone), PhoneError);
    assert errors == afterPhone && (isValid <==> errors == []);
    if !input.terms {
      errors := errors + [TermsError];
      isValid := false;
    }
    ghost var afterTerms := afterPhone + Failed(input.terms, TermsError);
    assert errors == afterTerms && (isValid <==> errors == []);
    if !input.hasImage {
      errors := errors + [ImageMissingError];
      isValid := false;
    }
  }

  /** The form passes exactly when every field does, the e-mail read as the
      regular expression defines it. */
  lemma FormValidIff(input: FormInput)
    ensures FormPasses(input) <==>
      NameOk(Trim(input.name)) && EmailShape(Trim(input.email)) && PhoneOk(Trim(input.phone)) &&
      input.terms && input.hasImage
  {
    EmailOkMatchesPattern(Trim(input.email));
  }

  // ---------------------------------------------------------------------------
  // The form inputs

  const IsValidClass := "is-valid"
  const IsInvalidClass := "is-invalid"

  /** The classes an input ends with after `toggleInputValidation`. */
  function ValidationClasses(classes: set<string>, value: string, isValid: bool): (r: set<string>)
    ensures value == "" ==> IsValidClass !in r && IsInvalidClass !in r
    ensures value != "" ==> (IsValidClass in r <==> isValid) && (IsInvalidClass in r <==> !isValid)
    ensures r - {IsValidClass, IsInvalidClass} == classes - {IsValidClass, IsInvalidClass}
  {
    if value == "" then classes - {IsValidClass, IsInvalidClass}
    else if isValid then classes - {IsInvalidClass} + {IsValidClass}
    else classes - {IsValidClass} + {IsInvalidClass}
  }

  /** A text input: its current value and its class list. */
  class InputElement {
    var value: string
    var classList: set<string>

    constructor (value: string, classList: set<string>)
      ensures this.value == value && this.classList == classList
    {
      this.value := value;
      this.classList := classList;
    }

    /** `toggleInputValidation(input, isValid)`. */
    method ToggleInputValidation(isValid: bool)
      modifies this
      ensures value == old(value)
      ensures classList == ValidationClasses(old(classList), value, isValid)
    {
      if value == "" {
        classList := classList - {IsValidClass, IsInvalidClass};
        return;
      }
      if isValid {
        classList := classList - {IsInvalidClass};
        classList := classList + {IsValidClass};
      } else {
        classList := classList - {IsValidClass};
        classList := classList + {IsInvalidClass};
      }
    }

    /** `FormUtils.formatPhone(input)`. */
    method FormatPhone()
      modifies this
      ensures value == FormatPhoneValue(old(value))
      ensures classList == old(classList)
    {
      var digits := Digits(value);
      if |digits| > 10 {
        digits := digits[..10];
      }
      value := digits;
    }

    /** `FormUtils.formatName(input)`. */
    method FormatName()
      modifies this
      ensures value == FormatNameValue(old(value))
      ensures classList == old(classList)
    {
      var letters := NameChars(value);
      value := CapitalizeWords(letters, false);
    }
  }

  /** Re-checking a field with the same verdict leaves its classes as they are. */
  lemma ValidationClassesSettle(classes: set<string>, value: string, isValid: bool)
    ensures var once := ValidationClasses(classes, value, isValid);
      ValidationClasses(once, value, isValid) == once
  {
    var once := ValidationClasses(classes, value, isValid);
    var twice := ValidationClasses(once, value, isValid);
    assert forall c :: c in twice <==> c in once;
  }

  // ---------------------------------------------------------------------------
  // The camera's facing mode

  const FrontCamera := "user"
  const BackCamera := "environment"

  /** `this.facingMode === 'user' ? 'environment' : 'user'`. */
  function Flipped(mode: string): (r: string)
    ensures r == FrontCamera || r == BackCamera
    ensures r == FrontCamera <==> mode != FrontCamera
  {
    if mode == FrontCamera then BackCamera else FrontCamera
  }

  /** Flipping twice restores either of the two modes. */
  lemma FlipTwiceRestores(mode: string)
    requires mode == FrontCamera || mode == BackCamera
    ensures Flipped(Flipped(mode)) == mode
  {
  }

  /** The part of the page controller that `switchCamera` changes. Stopping and
      restarting the stream is left out. */
  class FaceSwapApp {
    var facingMode: string

    predicate Valid()
      reads this
    {
      facingMode == FrontCamera || facingMode == BackCamera
    }

    constructor ()
      ensures Valid() && facingMode == FrontCamera
    {
      facingMode := FrontCamera;
    }

    /** The facing-mode update of `switchCamera`. */
    method SwitchFacingMode()
      modifies this
      requires Valid()
      ensures Valid()
      ensures facingMode == Flipped(old(facingMode))
      ensures facingMode != old(facingMode)
    {
      facingMode := if facingMode == FrontCamera then BackCamera else FrontCamera;
    }
  }

  // ---------------------------------------------------------------------------
  // getIconForType

  /** What `icons[type]` yields on the object literal: one of its four own
      properties, or a member every object inherits from `Object.prototype`
      (all of them truthy), or `undefined`. */
  datatype IconLookup = IconName(name: string) | InheritedMember(key: string) | Undefined

  /** The names of the members every plain object inherits. */
  const InheritedKeys: set<string> := {
    "constructor", "hasOwnProperty", "isPrototypeOf", "propertyIsEnumerable",
    "toLocaleString", "toString", "valueOf", "__proto__",
    "__defineGetter__", "__defineSetter__", "__lookupGetter__", "__lookupSetter__" }

  /** The four own properties of the icon table. */
  function OwnIcon(notificationType: string): (r: Option<string>)
    ensures r.Some? <==> notificationType in {"success", "danger", "warning", "info"}
  {
    if notificationType == "success" then Some("check-circle")
    else if notificationType == "danger" then Some("exclamation-triangle")
    else if notificationType == "warning" then Some("exclamation-circle")
    else if notificationType == "info" then Some("info-circle")
    else None
  }

  /** `icons[type] || 'info-circle'` as written: a property lookup that also
      reaches the inherited members, whose values are truthy and so returned. */
  function IconLookupAsWritten(notificationType: string): (r: IconLookup)
    ensures OwnIcon(notificationType).Some? ==> r == IconName(OwnIcon(notificationType).value)
    ensures r.InheritedMember? <==> notificationType in InheritedKeys
  {
    match OwnIcon(notificationType)
    case Some(icon) => IconName(icon)
    case None =>
      if notificationType in InheritedKeys then InheritedMember(notificationType)
      else IconName("info-circle")
  }

  /** The lookup as written returns a function, not an icon name, for `toString`. */
  lemma InheritedKeyYieldsNoIcon()
    ensures IconLookupAsWritten("toString") == InheritedMember("toString")
  {
    assert "toString" in InheritedKeys;
  }

  /** `getIconForType(type)` as intended: the four known types get their icon
      and every other string gets `info-circle`. */
  function IconForType(notificationType: string): (icon: string)
    ensures notificationType == "success" ==> icon == "check-circle"
    ensures notificationType == "danger" ==> icon == "exclamation-triangle"
    ensures notificationType == "warning" ==> icon == "exclamation-circle"
    ensures notificationType !in {"success", "danger", "warning"} ==> icon == "info-circle"
  {
    OwnIcon(notificationType).GetOr("info-circle")
  }

  /** Outside the inherited member names, the lookup as written and the
      intended mapping agree. */
  lemma IconLookupAgreesOutsideInherited(notificationType: string)
    requires notificationType !in InheritedKeys
    ensures IconLookupAsWritten(notificationType) == IconName(IconForType(notificationType))
  {
  }

  // ---------------------------------------------------------------------------
  // FormUtils

  /** `s.replace(/\D/g, '')`: the ASCII digits of `s`, in order. */
  function Digits(s: string): (r: string)
    ensures forall k :: 0 <= k < |r| ==> IsDigit(r[k])
    ensures IsSubsequence(r, s)
    // every digit of the input is kept, as often as it occurs
    ensures forall c :: IsDigit(c) ==> multiset(r)[c] == multiset(s)[c]
  {
    if s == [] then []
    else
      var rest := Digits(s[1..]);
      assert multiset(s) == multiset([s[0]]) + multiset(s[1..]) by { assert s == [s[0]] + s[1..]; }
      if IsDigit(s[0]) then
        SubsequenceCons(s[0], rest, s[1..]);
        assert [s[0]] + s[1..] == s;
        [s[0]] + rest
      else
        SubsequenceOfSuffix(rest, s, 1);
        rest
  }

  /** A string of digits keeps all of its characters. */
  lemma {:induction false} DigitsOfDigits(s: string)
    requires forall k :: 0 <= k < |s| ==> IsDigit(s[k])
    ensures Digits(s) == s
  {
    if s != [] {
      DigitsOfDigits(s[1..]);
      assert [s[0]] + s[1..] == s;
    }
  }

  /** The value `formatPhone` writes back: the digits, cut to the first ten. */
  function FormatPhoneValue(s: string): (r: string)
    ensures forall k :: 0 <= k < |r| ==> IsDigit(r[k])
    ensures |r| <= 10
    ensures r <= Digits(s)
    ensures |r| == if |Digits(s)| > 10 then 10 else |Digits(s)|
  {
    var digits := Digits(s);
    if |digits| > 10 then digits[..10] else digits
  }

  /** Formatting a formatted phone number changes nothing. */
  lemma FormatPhoneIdempotent(s: string)
    ensures FormatPhoneValue(FormatPhoneValue(s)) == FormatPhoneValue(s)
  {
    DigitsOfDigits(FormatPhoneValue(s));
  }

  /** The class `[a-zA-Z\s]`. */
  predicate IsNameChar(c: char) {
    IsAsciiLetter(c) || IsJsSpace(c)
  }

  /** `s.replace(/[^a-zA-Z\s]/g, '')`. */
  function NameChars(s: string): (r: string)
    ensures forall k :: 0 <= k < |r| ==> IsNameChar(r[k])
    ensures IsSubsequence(r, s)
    // every letter and white-space character of the input is kept, as often as it occurs
    ensures forall c :: IsNameChar(c) ==> multiset(r)[c] == multiset(s)[c]
  {
    if s == [] then []
    else
      var rest := NameChars(s[1..]);
      assert multiset(s) == multiset([s[0]]) + multiset(s[1..]) by { assert s == [s[0]] + s[1..]; }
      if IsNameChar(s[0]) then
        SubsequenceCons(s[0], rest, s[1..]);
        assert [s[0]] + s[1..] == s;
        [s[0]] + rest
      else
        SubsequenceOfSuffix(rest, s, 1);
        rest
  }

  lemma {:induction false} NameCharsOfNameChars(s: string)
    requires forall k :: 0 <= k < |s| ==> IsNameChar(s[k])
    ensures NameChars(s) == s
  {
    if s != [] {
      NameCharsOfNameChars(s[1..]);
      assert [s[0]] + s[1..] == s;
    }
  }

  /** A `\b\w` position: a word character with no word character before it. */
  predicate WordStart(s: string, k: int)
    requires 0 <= k < |s|
  {
    IsWordChar(s[k]) && (k == 0 || !IsWordChar(s[k - 1]))
  }

  /** `s.replace(/\b\w/g, letter => letter.toUpperCase())`, scanning left to
      right; `afterWord` says whether the character before `s` is a word character. */
  function CapitalizeWords(s: string, afterWord: bool): (r: string)
    ensures |r| == |s|
    ensures forall k :: 0 <= k < |s| ==> IsWordChar(r[k]) == IsWordChar(s[k])
    ensures forall k :: 0 <= k < |s| ==> IsAsciiLetter(r[k]) == IsAsciiLetter(s[k])
    ensures forall k :: 0 <= k < |s| ==> r[k] == s[k] || r[k] == AsciiUpper(s[k])
  {
    if s == [] then []
    else
      var c := if IsWordChar(s[0]) && !afterWord then AsciiUpper(s[0]) else s[0];
      [c] + CapitalizeWords(s[1..], IsWordChar(s[0]))
  }

  /** Which characters `CapitalizeWords` raises: exactly the word starts. */
  lemma {:induction false} CapitalizeWordsAt(s: string, afterWord: bool, k: nat)
    requires k < |s|
    ensures CapitalizeWords(s, afterWord)[k] ==
      if IsWordChar(s[k]) && (if k == 0 then !afterWord else !IsWordChar(s[k - 1])) then AsciiUpper(s[k]) else s[k]
  {
    if k > 0 {
      CapitalizeWordsAt(s[1..], IsWordChar(s[0]), k - 1);
    }
  }

  /** The value `formatName` writes back. */
  function FormatNameValue(s: string): (r: string)
    ensures |r| == |NameChars(s)|
    ensures forall k :: 0 <= k < |r| ==> IsNameChar(r[k])
  {
    CapitalizeWords(NameChars(s), false)
  }

  /** What `formatName` keeps and changes: only letters and white space remain,
      in order; each letter that starts a word is upper case; everything else
      is kept as it was. */
  lemma FormatNameCapitalizes(s: string, k: nat)
    requires k < |FormatNameValue(s)|
    ensures WordStart(NameChars(s), k) ==> !('a' <= FormatNameValue(s)[k] <= 'z') && FormatNameValue(s)[k] == AsciiUpper(NameChars(s)[k])
    ensures !WordStart(NameChars(s), k) ==> FormatNameValue(s)[k] == NameChars(s)[k]
  {
    CapitalizeWordsAt(NameChars(s), false, k);
  }

  /** Capitalising an already capitalised text changes nothing. */
  lemma {:induction false} CapitalizeWordsIdempotent(s: string, afterWord: bool)
    ensures CapitalizeWords(CapitalizeWords(s, afterWord), afterWord) == CapitalizeWords(s, afterWord)
  {
    if s != [] {
      var r := CapitalizeWords(s, afterWord);
      CapitalizeWordsIdempotent(s[1..], IsWordChar(s[0]));
      assert r[1..] == CapitalizeWords(s[1..], IsWordChar(s[0]));
      assert IsWordChar(r[0]) == IsWordChar(s[0]);
    }
  }

  /** Formatting a formatted name changes nothing. */
  lemma FormatNameIdempotent(s: string)
    ensures FormatNameValue(FormatNameValue(s)) == FormatNameValue(s)
  {
    var r := FormatNameValue(s);
    NameCharsOfNameChars(r);
    CapitalizeWordsIdempotent(NameChars(s), false);
  }

  const MegaByte := 1024 * 1024

  /** `FormUtils.validateFileSize(file, maxSizeMB = 2)`; `None` is the omitted argument. */
  function ValidateFileSize(size: int, maxSizeMB: Option<int>): (ok: bool)
    ensures maxSizeMB.None? ==> (ok <==> size <= MaxImageSize)
    ensures maxSizeMB.Some? ==> (ok <==> size <= maxSizeMB.value * MegaByte)
  {
    size <= maxSizeMB.GetOr(2) * MegaByte
  }

  /** `FormUtils.validateFileType(file, allowedTypes = [...])`. */
  function ValidateFileType(fileType: string, allowedTypes: Option<seq<string>>): (ok: bool)
    ensures allowedTypes.None? ==> (ok <==> fileType in AllowedImageTypes)
    ensures allowedTypes.Some? ==> (ok <==> fileType in allowedTypes.value)
  {
    fileType in allowedTypes.GetOr(AllowedImageTypes)
  }

  /** With their defaults, the two `FormUtils` checks together are `validateFile`. */
  lemma FormUtilsAgreeWithValidateFile(file: ClientFile)
    ensures ValidateFile(file).Valid? <==> ValidateFileType(file.fileType, None) && ValidateFileSize(file.size, None)
  {
  }
}
