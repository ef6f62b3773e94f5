/** The sign-up form (citizen/src/components/auth/RegisterForm.tsx): `registerSchema`, the
    list of field errors it reports, and `onSubmit`, which assembles the multipart body and
    hands it to the authentication context's `register`.

    The schema's `.email()` check is a library predicate and is passed in as `isEmail`. */
module RegisterForm {
  import opened Common
  import opened Text
  import AuthContext

  /** A browser `File`: its name and its MIME `type`. */
  datatype File = File(name: string, mimeType: string)

  /** The form values handed to the resolver. Every input is registered, so the text fields are
      strings (an untouched input gives ""); `phone` may be absent, and `avatar` is `undefined`
      until a file is chosen and then the input's file list. */
  datatype RegisterFields = RegisterFields(
    firstName: string, lastName: string, email: string, password: string,
    confirmPassword: string, phone: Option<string>, avatar: Option<seq<File>>)

  datatype FieldPath =
    | FirstNamePath | LastNamePath | EmailPath | PasswordPath | ConfirmPasswordPath
    | PhonePath | AvatarPath

  /** One issue the schema reports: the field it is shown under and its text. */
  datatype FormIssue = FormIssue(path: FieldPath, message: string)

  const FirstNameTooShort := "First name must be at least 2 characters"
  const LastNameTooShort := "Last name must be at least 2 characters"
  const InvalidEmail := "Please enter a valid email address"
  const PasswordTooShort := "Password must be at least 6 characters"
  const PasswordTooWeak := "Password must contain at least one uppercase letter, one lowercase letter, and one number"
  const AvatarNotImage := "Avatar must be an image file"
  const PasswordsDontMatch := "Passwords don't match"

  const MinNameLength := 2
  const MinPasswordLength := 6

  predicate HasLower(s: string) {
    exists i :: 0 <= i < |s| && 'a' <= s[i] <= 'z'
  }

  predicate HasUpper(s: string) {
    exists i :: 0 <= i < |s| && 'A' <= s[i] <= 'Z'
  }

  predicate HasDigit(s: string) {
    exists i :: 0 <= i < |s| && '0' <= s[i] <= '9'
  }

  /** The pattern `^(?=.*[a-z])(?=.*[A-Z])(?=.*\d)`: each look-ahead starts at the beginning and
      its `.*` cannot cross a line terminator, so only the first line of the password counts. */
  predicate StrongPassword(password: string) {
    var line := FirstLine(password);
    HasLower(line) && HasUpper(line) && HasDigit(line)
  }

  /** The avatar refinement: no value, an empty file list, or a single file whose type starts
      with "image/". */
  predicate AvatarAcceptable(avatar: Option<seq<File>>) {
    match avatar
    case None => true
    case Some(files) => |files| == 0 || (|files| == 1 && "image/" <= files[0].mimeType)
  }

  /** The schema's checks, in the order it runs them: the field checks in the order of the
      object's keys, each string's checks in the order they are chained, and the object-level
      confirmation last. */
  datatype Check =
    | FirstNameLength | LastNameLength | EmailFormat | PasswordLength | PasswordStrength
    | AvatarType | ConfirmMatches

  /** The field an error is shown under. The confirmation is reported under `confirmPassword`. */
  function PathOf(c: Check): FieldPath {
    match c
    case FirstNameLength => FirstNamePath
    case LastNameLength => LastNamePath
    case EmailFormat => EmailPath
    case PasswordLength => PasswordPath
    case PasswordStrength => PasswordPath
    case AvatarType => AvatarPath
    case ConfirmMatches => ConfirmPasswordPath
  }

  function MessageOf(c: Check): string {
    match c
    case FirstNameLength => FirstNameTooShort
    case LastNameLength => LastNameTooShort
    case EmailFormat => InvalidEmail
    case PasswordLength => PasswordTooShort
    case PasswordStrength => PasswordTooWeak
    case AvatarType => AvatarNotImage
    case ConfirmMatches => PasswordsDontMatch
  }

  /** The checks in the order the schema runs them. */
  const AllChecks := [FirstNameLength, LastNameLength, EmailFormat, PasswordLength, PasswordStrength,
                      AvatarType, ConfirmMatches]

  /** A check's position in `AllChecks`. */
  function Rank(c: Check): nat {
    match c
    case FirstNameLength => 0
    case LastNameLength => 1
    case EmailFormat => 2
    case PasswordLength => 3
    case PasswordStrength => 4
    case AvatarType => 5
    case ConfirmMatches => 6
  }

  /** Each check comes before every later one in `AllChecks`, and none comes twice. */
  predicate InRunOrder(checks: seq<Check>) {
    forall i, j :: 0 <= i < j < |checks| ==> Rank(checks[i]) < Rank(checks[j])
  }

  /** The rule behind each check. */
  predicate Holds(f: RegisterFields, isEmail: string -> bool, c: Check) {
    match c
    case FirstNameLength => |f.firstName| >= MinNameLength
    case LastNameLength => |f.lastName| >= MinNameLength
    case EmailFormat => isEmail(f.email)
    case PasswordLength => |f.password| >= MinPasswordLength
    case PasswordStrength => StrongPassword(f.password)
    case AvatarType => AvatarAcceptable(f.avatar)
    case ConfirmMatches => f.password == f.confirmPassword
  }

  lemma AllChecksInRunOrder()
    ensures InRunOrder(AllChecks)
  {
    forall i, j | 0 <= i < j < |AllChecks| ensures Rank(AllChecks[i]) < Rank(AllChecks[j]) {
      assert Rank(AllChecks[i]) == i && Rank(AllChecks[j]) == j;
    }
  }

  /** Runs `checks` in order and collects those that fail, keeping the order they ran in
      (`FailingKeepsOrder`). */
  function Failing(f: RegisterFields, isEmail: string -> bool, checks: seq<Check>): (failed: seq<Check>)
    ensures forall c :: c in failed <==> c in checks && !Holds(f, isEmail, c)
    ensures |failed| <= |checks|
  {
    if checks == [] then []
    else
      var rest := Failing(f, isEmail, checks[1..]);
      assert forall c :: c in checks <==> c == checks[0] || c in checks[1..];
      if Holds(f, isEmail, checks[0]) then rest else [checks[0]] + rest
  }

  /** The failed checks are reported in the order they ran: a subsequence of the checks run,
      so a list in run order gives a report in run order. */
  lemma {:induction false} FailingKeepsOrder(f: RegisterFields, isEmail: string -> bool, checks: seq<Check>)
    ensures IsSubsequence(Failing(f, isEmail, checks), checks)
    ensures InRunOrder(checks) ==> InRunOrder(Failing(f, isEmail, checks))
  {
    if checks != [] {
      var rest := Failing(f, isEmail, checks[1..]);
      FailingKeepsOrder(f, isEmail, checks[1..]);
      if !Holds(f, isEmail, checks[0]) {
        var failed := [checks[0]] + rest;
        assert failed[1..] == rest;
        if InRunOrder(checks) {
          forall i, j | 0 <= i < j < |failed| ensures Rank(failed[i]) < Rank(failed[j]) {
            if i == 0 {
              assert failed[j] in checks[1..];
              var k :| 0 <= k < |checks[1..]| && checks[1..][k] == failed[j];
              assert checks[k + 1] == failed[j];
            } else {
              assert failed[i] == rest[i - 1] && failed[j] == rest[j - 1];
            }
          }
        }
      }
    }
  }

  /** `registerSchema.safeParse`: the checks that fail, in the order the schema runs them. The
      confirmation is checked even when a field check has failed, since every field is a string
      and a failed string check does not abort the object. */
  function FailedChecks(f: RegisterFields, isEmail: string -> bool): (failed: seq<Check>)
    ensures FirstNameLength in failed <==> |f.firstName| < MinNameLength
    ensures LastNameLength in failed <==> |f.lastName| < MinNameLength
    ensures EmailFormat in failed <==> !isEmail(f.email)
    ensures PasswordLength in failed <==> |f.password| < MinPasswordLength
    ensures PasswordStrength in failed <==> !StrongPassword(f.password)
    ensures AvatarType in failed <==> !AvatarAcceptable(f.avatar)
    ensures ConfirmMatches in failed <==> f.password != f.confirmPassword
    ensures |failed| <= |AllChecks|
  {
    Failing(f, isEmail, AllChecks)
  }

  /** The report lists the failed checks in the order the schema runs them, each once: the
      first name, the last name, the e-mail, the password length before its strength, the
      avatar, and the confirmation last. */
  lemma FailedChecksInRunOrder(f: RegisterFields, isEmail: string -> bool)
    ensures InRunOrder(FailedChecks(f, isEmail))
  {
    AllChecksInRunOrder();
    FailingKeepsOrder(f, isEmail, AllChecks);
  }

  /** When every check but the last holds, only the last is reported. */
  lemma {:induction false} OnlyLastFails(f: RegisterFields, isEmail: string -> bool, checks: seq<Check>)
    requires checks != []
    requires forall k :: 0 <= k < |checks| - 1 ==> Holds(f, isEmail, checks[k])
    requires !Holds(f, isEmail, checks[|checks| - 1])
    ensures Failing(f, isEmail, checks) == [checks[|checks| - 1]]
  {
    if |checks| > 1 {
      OnlyLastFails(f, isEmail, checks[1..]);
    }
  }

  /** The issues the schema reports, one per failed check and in the same order. None is ever
      under `phone`. */
  function Issues(f: RegisterFields, isEmail: string -> bool): (issues: seq<FormIssue>)
    ensures |issues| == |FailedChecks(f, isEmail)|
    ensures forall k :: 0 <= k < |issues| ==>
              var c := FailedChecks(f, isEmail)[k];
              issues[k] == FormIssue(PathOf(c), MessageOf(c))
    ensures forall k :: 0 <= k < |issues| ==> issues[k].path != PhonePath
  {
    var failed := FailedChecks(f, isEmail);
    seq(|failed|, k requires 0 <= k < |failed| => FormIssue(PathOf(failed[k]), MessageOf(failed[k])))
  }

  /** The form is accepted exactly when every rule holds. */
  lemma ValidIffAllRules(f: RegisterFields, isEmail: string -> bool)
    ensures Issues(f, isEmail) == [] <==>
              && |f.firstName| >= MinNameLength && |f.lastName| >= MinNameLength
              && isEmail(f.email)
              && |f.password| >= MinPasswordLength && StrongPassword(f.password)
              && AvatarAcceptable(f.avatar)
              && f.password == f.confirmPassword
  {
    var failed := FailedChecks(f, isEmail);
    if failed != [] {
      assert failed[0] in failed;
    }
  }

  /** A mismatched confirmation on an otherwise valid form yields exactly one error, shown
      under `confirmPassword`. */
  lemma MismatchOnConfirmPath(f: RegisterFields, isEmail: string -> bool)
    requires |f.firstName| >= MinNameLength && |f.lastName| >= MinNameLength && isEmail(f.email)
    requires |f.password| >= MinPasswordLength && StrongPassword(f.password) && AvatarAcceptable(f.avatar)
    requires f.password != f.confirmPassword
    ensures Issues(f, isEmail) == [FormIssue(ConfirmPasswordPath, PasswordsDontMatch)]
  {
    OnlyLastFails(f, isEmail, AllChecks);
  }

  /** No check looks at `phone`. */
  lemma {:induction false} ChecksIgnorePhone(f: RegisterFields, isEmail: string -> bool, phone: Option<string>, checks: seq<Check>)
    ensures Failing(f.(phone := phone), isEmail, checks) == Failing(f, isEmail, checks)
  {
    if checks != [] {
      ChecksIgnorePhone(f, isEmail, phone, checks[1..]);
      assert Holds(f.(phone := phone), isEmail, checks[0]) == Holds(f, isEmail, checks[0]);
    }
  }

  /** `phone` is optional and unchecked: whatever it holds, the errors are the same. */
  lemma PhoneIrrelevant(f: RegisterFields, isEmail: string -> bool, phone: Option<string>)
    ensures Issues(f.(phone := phone), isEmail) == Issues(f, isEmail)
  {
    ChecksIgnorePhone(f, isEmail, phone, AllChecks);
  }

  /** The `errors` object the resolver hands the form: with the default `criteriaMode`
      ("firstError") it keeps, for each field, the message of the first issue under it. */
  function ShownErrors(issues: seq<FormIssue>): (shown: map<FieldPath, string>)
    ensures issues == [] <==> shown == map[]
  {
    if issues == [] then map[]
    else
      var shown := ShownErrors(issues[1..])[issues[0].path := issues[0].message];
      assert issues[0].path in shown;
      shown
  }

  /** A field shows an error exactly when some issue is under it, and it shows the message of
      the first such issue. */
  lemma {:induction false} FirstIssuePerPath(issues: seq<FormIssue>)
    ensures forall p :: p in ShownErrors(issues) <==> exists k :: 0 <= k < |issues| && issues[k].path == p
    ensures forall k :: 0 <= k < |issues| && (forall j :: 0 <= j < k ==> issues[j].path != issues[k].path) ==>
              issues[k].path in ShownErrors(issues) && ShownErrors(issues)[issues[k].path] == issues[k].message
  {
    if issues != [] {
      var rest := issues[1..];
      FirstIssuePerPath(rest);
      forall p ensures p in ShownErrors(issues) <==> exists k :: 0 <= k < |issues| && issues[k].path == p {
        if p in ShownErrors(rest) {
          var k :| 0 <= k < |rest| && rest[k].path == p;
          assert issues[k + 1].path == p;
        }
        if exists k :: 0 <= k < |issues| && issues[k].path == p {
          var k :| 0 <= k < |issues| && issues[k].path == p;
          if k > 0 {
            assert rest[k - 1].path == p;
          }
        }
      }
      forall k | 0 <= k < |issues| && (forall j :: 0 <= j < k ==> issues[j].path != issues[k].path)
        ensures issues[k].path in ShownErrors(issues) && ShownErrors(issues)[issues[k].path] == issues[k].message
      {
        if k > 0 {
          assert issues[0].path != issues[k].path;
          assert rest[k - 1] == issues[k];
          forall j | 0 <= j < k - 1 ensures rest[j].path != rest[k - 1].path {
            assert rest[j] == issues[j + 1];
          }
        }
      }
    }
  }

  /** An issue with no earlier issue under its field is the one shown there. */
  lemma ShownIsFirst(issues: seq<FormIssue>, k: nat)
    requires k < |issues|
    requires forall j :: 0 <= j < k ==> issues[j].path != issues[k].path
    ensures issues[k].path in ShownErrors(issues) && ShownErrors(issues)[issues[k].path] == issues[k].message
  {
    FirstIssuePerPath(issues);
  }

  /** The issue at position `k` of the report is the first under the password field when no
      earlier failed check is a password check. */
  lemma FirstPasswordIssue(f: RegisterFields, isEmail: string -> bool, k: nat)
    requires k < |FailedChecks(f, isEmail)|
    requires forall j :: 0 <= j < k ==> Rank(FailedChecks(f, isEmail)[j]) < Rank(PasswordLength)
    requires PathOf(FailedChecks(f, isEmail)[k]) == PasswordPath
    ensures PasswordPath in ShownErrors(Issues(f, isEmail))
    ensures ShownErrors(Issues(f, isEmail))[PasswordPath] == MessageOf(FailedChecks(f, isEmail)[k])
  {
    var failed, issues := FailedChecks(f, isEmail), Issues(f, isEmail);
    assert issues[k] == FormIssue(PasswordPath, MessageOf(failed[k]));
    forall j | 0 <= j < k ensures issues[j].path != issues[k].path {
      assert issues[j].path == PathOf(failed[j]);
      assert Rank(failed[j]) < Rank(PasswordLength);
    }
    ShownIsFirst(issues, k);
  }

  /** A password shorter than six characters shows only the length message, even when it is
      also too weak: "abc" confirmed as "abc" shows "Password must be at least 6 characters". */
  lemma ShortPasswordShowsLength(f: RegisterFields, isEmail: string -> bool)
    requires |f.password| < MinPasswordLength
    ensures PasswordPath in ShownErrors(Issues(f, isEmail))
    ensures ShownErrors(Issues(f, isEmail))[PasswordPath] == PasswordTooShort
  {
    var failed := FailedChecks(f, isEmail);
    FailedChecksInRunOrder(f, isEmail);
    assert PasswordLength in failed;
    var k :| 0 <= k < |failed| && failed[k] == PasswordLength;
    FirstPasswordIssue(f, isEmail, k);
  }

  /** A password long enough but too weak shows the strength message. */
  lemma WeakPasswordShowsStrength(f: RegisterFields, isEmail: string -> bool)
    requires |f.password| >= MinPasswordLength && !StrongPassword(f.password)
    ensures PasswordPath in ShownErrors(Issues(f, isEmail))
    ensures ShownErrors(Issues(f, isEmail))[PasswordPath] == PasswordTooWeak
  {
    var failed := FailedChecks(f, isEmail);
    FailedChecksInRunOrder(f, isEmail);
    assert PasswordStrength in failed;
    var k :| 0 <= k < |failed| && failed[k] == PasswordStrength;
    forall j | 0 <= j < k ensures Rank(failed[j]) < Rank(PasswordLength) {
      assert failed[j] in failed;
    }
    FirstPasswordIssue(f, isEmail, k);
  }

  /** For a password on one line the pattern means what it says: a lower-case letter, an
      upper-case letter and a digit somewhere in it. */
  lemma {:induction false} SingleLineStrength(password: string)
    requires forall i :: 0 <= i < |password| ==> !IsLineTerminator(password[i])
    ensures StrongPassword(password) <==> HasLower(password) && HasUpper(password) && HasDigit(password)
  {
    var line := FirstLine(password);
    assert |line| == |password|;
    assert line == password;
  }

  /** Letters after a line break are not seen: "abc1\nXYZ" has every kind of character, yet it
      is refused as too weak. */
  lemma SecondLineNotScanned()
    ensures HasUpper("abc1\nXYZ") && !StrongPassword("abc1\nXYZ")
  {
    var s := "abc1\nXYZ";
    assert s[5] == 'X';
    assert FirstLine(s) == "abc1" by {
      assert FirstLine(s[4..]) == [];
      assert FirstLine(s[3..]) == "1";
      assert FirstLine(s[2..]) == "c1";
      assert FirstLine(s[1..]) == "bc1";
    }
    assert !HasUpper("abc1") by {
      var t := "abc1";
      forall i | 0 <= i < |t| ensures !('A' <= t[i] <= 'Z') {
      }
    }
  }

  /** One `formData.append(key, value)`: a text field or a file. */
  datatype FormEntry = TextEntry(key: string, value: string) | FileEntry(key: string, file: File)

  function EntryKey(e: FormEntry): string {
    match e
    case TextEntry(k, _) => k
    case FileEntry(k, _) => k
  }

  /** Whether `onSubmit` appends the avatar: a file list with at least one file. */
  predicate SendsAvatar(avatar: Option<seq<File>>) {
    avatar.Some? && |avatar.value| > 0
  }

  /** The multipart body `onSubmit` builds, in append order: the four required text fields,
      `phone` when it is truthy, and the first avatar file when there is one. The
      confirmation is never sent. */
  predicate SubmittedBody(data: RegisterFields, body: seq<FormEntry>) {
    && |body| == 4 + (if Truthy(data.phone) then 1 else 0) + (if SendsAvatar(data.avatar) then 1 else 0)
    && body[..4] == [TextEntry("firstName", data.firstName), TextEntry("lastName", data.lastName),
                     TextEntry("email", data.email), TextEntry("password", data.password)]
    && (TextEntry("phone", data.phone.GetOr("")) in body <==> Truthy(data.phone))
    && ((exists k :: 0 <= k < |body| && body[k].FileEntry?) <==> SendsAvatar(data.avatar))
    && (SendsAvatar(data.avatar) ==> body[|body| - 1] == FileEntry("avatar", data.avatar.value[0]))
    && (forall k :: 0 <= k < |body| ==> EntryKey(body[k]) != "confirmPassword")
  }

  /** The successive `formData.append` calls of `onSubmit`. */
  method BuildFormData(data: RegisterFields) returns (body: seq<FormEntry>)
    ensures SubmittedBody(data, body)
  {
    body := [];
    body := body + [TextEntry("firstName", data.firstName)];
    body := body + [TextEntry("lastName", data.lastName)];
    body := body + [TextEntry("email", data.email)];
    body := body + [TextEntry("password", data.password)];
    if Truthy(data.phone) {
      body := body + [TextEntry("phone", data.phone.value)];
    }
    assert body[..4] == [TextEntry("firstName", data.firstName), TextEntry("lastName", data.lastName),
                         TextEntry("email", data.email), TextEntry("password", data.password)];
    assert forall k :: 0 <= k < |body| ==> body[k].TextEntry?;
    if SendsAvatar(data.avatar) {
      body := body + [FileEntry("avatar", data.avatar.value[0])];
      assert body[|body| - 1].FileEntry?;
    }
  }

  /** The component's state: the message shown under each field, whether the success card is
      shown, the last body sent, and how often the optional `onSuccess` callback ran. */
  class RegisterFormView {
    var fieldErrors: map<FieldPath, string>
    var registrationSuccess: bool
    var sent: seq<FormEntry>
    var onSuccessCalls: nat
    const hasOnSuccess: bool
    const isEmail: string -> bool

    constructor (hasOnSuccess: bool, isEmail: string -> bool)
      ensures fieldErrors == map[] && !registrationSuccess && sent == [] && onSuccessCalls == 0
      ensures this.hasOnSuccess == hasOnSuccess && this.isEmail == isEmail
    {
      fieldErrors := map[];
      registrationSuccess := false;
      sent := [];
      onSuccessCalls := 0;
      this.hasOnSuccess := hasOnSuccess;
      this.isEmail := isEmail;
    }

    /** `onSubmit`: clear the context's error, send the body, and switch to the success card
        only when `register` returned a truthy result. `reply` is what the server answered. */
    method OnSubmit(auth: AuthContext.AuthProvider, data: RegisterFields, reply: AuthContext.ApiReply<bool>)
      requires auth.Valid()
      modifies this, auth
      ensures auth.Valid()
      ensures fieldErrors == old(fieldErrors)
      ensures SubmittedBody(data, sent)
      ensures registrationSuccess == (old(registrationSuccess) || reply == AuthContext.Answered(true))
      ensures onSuccessCalls == old(onSuccessCalls) + (if reply == AuthContext.Answered(true) && hasOnSuccess then 1 else 0)
      ensures auth.storage == old(auth.storage)
      ensures var last := if reply.Answered? then AuthContext.SetLoading(false)
                          else AuthContext.AuthFailure(AuthContext.FailureMessage(reply.serverMessage));
              && auth.state == AuthContext.Reduce(AuthContext.Reduce(AuthContext.Reduce(
                                 old(auth.state), AuthContext.ClearError), AuthContext.AuthStart), last)
              && auth.effects == old(auth.effects) + [AuthContext.Dispatched(AuthContext.ClearError),
                                                      AuthContext.Dispatched(AuthContext.AuthStart),
                                                      AuthContext.Dispatched(last)]
    {
      auth.ClearError();
      sent := BuildFormData(data);
      var result := auth.Register(reply);
      if result == Some(true) {
        registrationSuccess := true;
        if hasOnSuccess {
          onSuccessCalls := onSuccessCalls + 1;
        }
      }
    }

    /** `handleSubmit(onSubmit)` under the schema's resolver: an invalid form shows the first
        error of each field and sends nothing; a valid one clears the shown errors and runs
        `onSubmit`. */
    method HandleSubmit(auth: AuthContext.AuthProvider, data: RegisterFields, reply: AuthContext.ApiReply<bool>)
      requires auth.Valid()
      modifies this, auth
      ensures auth.Valid()
      ensures fieldErrors == ShownErrors(Issues(data, isEmail))
      ensures fieldErrors == map[] <==> Issues(data, isEmail) == []
      ensures fieldErrors != map[] ==>
                && auth.state == old(auth.state) && auth.storage == old(auth.storage)
                && auth.effects == old(auth.effects)
                && sent == old(sent) && registrationSuccess == old(registrationSuccess)
                && onSuccessCalls == old(onSuccessCalls)
      ensures fieldErrors == map[] ==>
                && SubmittedBody(data, sent)
                && registrationSuccess == (old(registrationSuccess) || reply == AuthContext.Answered(true))
                && onSuccessCalls == old(onSuccessCalls) + (if reply == AuthContext.Answered(true) && hasOnSuccess then 1 else 0)
                && auth.storage == old(auth.storage)
                && var last := if reply.Answered? then AuthContext.SetLoading(false)
                               else AuthContext.AuthFailure(AuthContext.FailureMessage(reply.serverMessage));
                   && auth.state == AuthContext.Reduce(AuthContext.Reduce(AuthContext.Reduce(
                                      old(auth.state), AuthContext.ClearError), AuthContext.AuthStart), last)
                   && auth.effects == old(auth.effects) + [AuthContext.Dispatched(AuthContext.ClearError),
                                                           AuthContext.Dispatched(AuthContext.AuthStart),
                                                           AuthContext.Dispatched(last)]
    {
      var issues := Issues(data, isEmail);
      if issues == [] {
        fieldErrors := map[];
        OnSubmit(auth, data, reply);
      } else {
        fieldErrors := ShownErrors(issues);
      }
    }
  }
}
