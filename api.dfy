/**
 * The HTTP handlers of the service (backend/main.py): the identifier
 * classifiers, and signup, login, user lookup, loan application, the
 * application history and the improvement endpoint over the user and
 * application tables, which live in a `LoanService` object.
 */
module Api {
  import opened Wrappers
  import opened Schemas
  import opened PredictionHelper
  import opened Models
  import CreditImprovement

  // ------------------------------------------------ identifier classifiers

  predicate IsAsciiLetter(c: char) { 'a' <= c <= 'z' || 'A' <= c <= 'Z' }
  predicate IsAsciiDigit(c: char) { '0' <= c <= '9' }

  /** A character of the local part: `[a-zA-Z0-9._%+-]`. */
  predicate IsLocalChar(c: char) { IsAsciiLetter(c) || IsAsciiDigit(c) || c in "._%+-" }

  /** A character of the domain: `[a-zA-Z0-9.-]`. */
  predicate IsDomainChar(c: char) { IsAsciiLetter(c) || IsAsciiDigit(c) || c == '.' || c == '-' }

  predicate AllLocal(s: string) { forall i :: 0 <= i < |s| ==> IsLocalChar(s[i]) }
  predicate AllDomain(s: string) { forall i :: 0 <= i < |s| ==> IsDomainChar(s[i]) }
  predicate AllLetters(s: string) { forall i :: 0 <= i < |s| ==> IsAsciiLetter(s[i]) }

  /** A non-empty string of digits (an empty string has no digits to be). */
  predicate IsDigits(s: string) { |s| > 0 && forall i :: 0 <= i < |s| ==> IsAsciiDigit(s[i]) }

  /** `identifier.isdigit() and len(identifier) == 10`. */
  predicate IsMobile(identifier: string)
    ensures IsMobile(identifier) <==> |identifier| == 10 && forall c :: c in identifier ==> IsAsciiDigit(c)
  {
    IsDigits(identifier) && |identifier| == 10
  }

  /** `identifier.isdigit() and len(identifier) == 12`. */
  predicate IsAadhar(identifier: string)
    ensures IsAadhar(identifier) <==> |identifier| == 12 && forall c :: c in identifier ==> IsAsciiDigit(c)
  {
    IsDigits(identifier) && |identifier| == 12
  }

  /** The first position of `c` in `s`. */
  function FirstIndexOf(s: string, c: char): (r: Option<nat>)
    ensures r.None? <==> c !in s
    ensures r.Some? ==> r.value < |s| && s[r.value] == c && c !in s[..r.value]
  {
    if s == [] then None
    else if s[0] == c then Some(0)
    else
      match FirstIndexOf(s[1..], c)
      case None => None
      case Some(i) => assert s[1..][..i] == s[1..i + 1]; Some(i + 1)
  }

  /** The last position of `c` in `s`. */
  function LastIndexOf(s: string, c: char): (r: Option<nat>)
    ensures r.None? <==> c !in s
    ensures r.Some? ==> r.value < |s| && s[r.value] == c && c !in s[r.value + 1..]
  {
    if s == [] then None
    else if s[|s| - 1] == c then Some(|s| - 1)
    else
      var r := LastIndexOf(s[..|s| - 1], c);
      assert s == s[..|s| - 1] + [s[|s| - 1]];
      r
  }

  /**
   * The email pattern `local@domain.tld`, anchored at both ends. Neither part
   * may hold an `@`, so the local part is everything before the first one.
   */
  predicate IsEmail(identifier: string)
    ensures IsEmail(identifier) ==> 6 <= |identifier| && '@' in identifier
  {
    var at := FirstIndexOf(identifier, '@');
    at.Some? && at.value >= 1 && AllLocal(identifier[..at.value]) && IsHost(identifier[at.value + 1..])
  }

  /** `domain.tld`: the top-level domain holds letters only, so it follows the last dot. */
  predicate IsHost(host: string)
  {
    var dot := LastIndexOf(host, '.');
    AllDomain(host) && dot.Some? && dot.value >= 1 && |host| - dot.value - 1 >= 2 && AllLetters(host[dot.value + 1..])
  }

  /** The pattern read as a decomposition: local characters, `@` at `at`, then a host. */
  ghost predicate EmailShape(identifier: string)
  {
    exists at: int :: 1 <= at < |identifier| && identifier[at] == '@'
      && AllLocal(identifier[..at]) && HostShape(identifier[at + 1..])
  }

  /** One or more domain characters, `.` at `dot`, then two or more letters to the end. */
  ghost predicate HostShape(host: string)
  {
    exists dot: int :: 1 <= dot && dot + 3 <= |host| && host[dot] == '.'
      && AllDomain(host[..dot]) && AllLetters(host[dot + 1..])
  }

  /** A position holding `c` with no `c` before it is the first position of `c`. */
  lemma FirstIndexOfIs(s: string, c: char, k: nat)
    requires k < |s| && s[k] == c && c !in s[..k]
    ensures FirstIndexOf(s, c) == Some(k)
  {
    var r := FirstIndexOf(s, c).value;
    forall j | 0 <= j < k ensures s[j] != c {
      assert s[..k][j] == s[j];
    }
    forall j | 0 <= j < r ensures s[j] != c {
      assert s[..r][j] == s[j];
    }
  }

  /** A position holding `c` with no `c` after it is the last position of `c`. */
  lemma LastIndexOfIs(s: string, c: char, k: nat)
    requires k < |s| && s[k] == c && c !in s[k + 1..]
    ensures LastIndexOf(s, c) == Some(k)
  {
    var r := LastIndexOf(s, c).value;
    forall j | k < j < |s| ensures s[j] != c {
      assert s[k + 1..][j - k - 1] == s[j];
    }
    forall j | r < j < |s| ensures s[j] != c {
      assert s[r + 1..][j - r - 1] == s[j];
    }
  }

  /** The scanning host check and the decomposition agree. */
  lemma IsHostIffShape(host: string)
    ensures IsHost(host) <==> HostShape(host)
  {
    if IsHost(host) {
      var dot := LastIndexOf(host, '.').value;
      forall i | 0 <= i < dot ensures IsDomainChar(host[..dot][i]) {
        assert host[..dot][i] == host[i];
      }
      HostWitness(host, dot);
    }
    if HostShape(host) {
      var dot: int :| 1 <= dot && dot + 3 <= |host| && host[dot] == '.'
        && AllDomain(host[..dot]) && AllLetters(host[dot + 1..]);
      ShapeIsHost(host, dot);
    }
  }

  lemma HostWitness(host: string, dot: int)
    requires 1 <= dot && dot + 3 <= |host| && host[dot] == '.'
    requires AllDomain(host[..dot]) && AllLetters(host[dot + 1..])
    ensures HostShape(host)
  {
  }

  lemma ShapeIsHost(host: string, dot: int)
    requires 1 <= dot && dot + 3 <= |host| && host[dot] == '.'
    requires AllDomain(host[..dot]) && AllLetters(host[dot + 1..])
    ensures IsHost(host)
  {
    forall i | 0 <= i < |host| ensures IsDomainChar(host[i]) {
      if i < dot {
        assert host[i] == host[..dot][i];
      } else if i > dot {
        assert host[i] == host[dot + 1..][i - dot - 1];
      }
    }
    var tld := host[dot + 1..];
    forall i | 0 <= i < |tld| ensures tld[i] != '.' {
      assert IsAsciiLetter(tld[i]);
    }
    LastIndexOfIs(host, '.', dot);
  }

  /** The scanning classifier and the decomposition agree on every string. */
  lemma IsEmailIffShape(identifier: string)
    ensures IsEmail(identifier) <==> EmailShape(identifier)
  {
    if IsEmail(identifier) {
      IsEmailHasShape(identifier);
    }
    if EmailShape(identifier) {
      var at: int :| 1 <= at < |identifier| && identifier[at] == '@'
        && AllLocal(identifier[..at]) && HostShape(identifier[at + 1..]);
      ShapeIsEmail(identifier, at);
    }
  }

  lemma IsEmailHasShape(identifier: string)
    requires IsEmail(identifier)
    ensures EmailShape(identifier)
  {
    var at := FirstIndexOf(identifier, '@').value;
    IsHostIffShape(identifier[at + 1..]);
    EmailWitness(identifier, at);
  }

  lemma ShapeIsEmail(identifier: string, at: int)
    requires 1 <= at < |identifier| && identifier[at] == '@'
    requires AllLocal(identifier[..at]) && HostShape(identifier[at + 1..])
    ensures IsEmail(identifier)
  {
    var local := identifier[..at];
    forall i | 0 <= i < at ensures local[i] != '@' {
      assert IsLocalChar(local[i]);
    }
    FirstIndexOfIs(identifier, '@', at);
    IsHostIffShape(identifier[at + 1..]);
  }

  lemma EmailWitness(identifier: string, at: int)
    requires 1 <= at < |identifier| && identifier[at] == '@'
    requires AllLocal(identifier[..at]) && HostShape(identifier[at + 1..])
    ensures EmailShape(identifier)
  {
  }

  /** No identifier is both a mobile number and an Aadhaar number, and an email is neither. */
  lemma IdentifierKindsDisjoint(identifier: string)
    ensures !(IsMobile(identifier) && IsAadhar(identifier))
    ensures IsEmail(identifier) ==> !IsMobile(identifier) && !IsAadhar(identifier)
  {
    if IsEmail(identifier) {
      var at := FirstIndexOf(identifier, '@').value;
      assert !IsAsciiDigit(identifier[at]);
    }
  }

  // ------------------------------------------------ responses and errors

  /** A failed request: an HTTP error with its detail, or a request the schema rejects (422). */
  datatype Failure =
    | HttpError(status: int, detail: string)
    | SignupInvalid(signupErrors: seq<SignupError>)
    | LoanRequestInvalid(fieldErrors: seq<LoanField>)

  /** What the API returns about a user: everything but the password. */
  datatype UserResponse = UserResponse(id: int, fullName: string, email: string, mobileNumber: string, aadhar: string)

  function ResponseOf(u: User): UserResponse
  {
    UserResponse(u.id, u.fullName, u.email, u.mobileNumber, u.aadhar)
  }

  datatype AuthResponse = AuthResponse(message: string, user: UserResponse)

  datatype PredictionResponse = PredictionResponse(message: string, application: LoanApplication, loanToIncomeRatio: real)

  datatype ImprovementResponse = ImprovementResponse(
    success: bool,
    message: string,
    creditScore: Option<int>,
    totalApplications: Option<nat>,
    suggestions: seq<CreditImprovement.Suggestion>)

  const NoApplicationMessage := "No loan application found. Please apply for a loan first."
  const SuggestionsMessage := "Credit improvement suggestions generated successfully"

  // ------------------------------------------------ application status

  /** The status an application receives from its score. */
  function StatusFor(score: int): (status: Status)
    ensures status != Pending
    ensures status == Approved <==> score >= 650
    ensures status == UnderReview <==> 500 <= score < 650
    ensures status == Rejected <==> score < 500
  {
    if score >= 650 then Approved
    else if score >= 500 then UnderReview
    else Rejected
  }

  /** The status as the application table stores it. */
  function StatusName(status: Status): string
  {
    match status
    case Pending => "Pending"
    case Approved => "Approved"
    case UnderReview => "Under Review"
    case Rejected => "Rejected"
  }

  function LowerChar(c: char): char
  {
    if 'A' <= c <= 'Z' then (c as int + 32) as char else c
  }

  /** `str.lower()` on ASCII text. */
  function Lower(s: string): (t: string)
    ensures |t| == |s|
    ensures forall i :: 0 <= i < |s| ==> t[i] == LowerChar(s[i])
  {
    seq(|s|, i requires 0 <= i < |s| => LowerChar(s[i]))
  }

  /** The message of a successful application: "Application " and the status in lower case. */
  function StatusMessage(status: Status): (msg: string)
    ensures msg == "Application " + Lower(StatusName(status))
  {
    match status
    case Pending => "Application pending"
    case Approved => "Application approved"
    case UnderReview => "Application under review"
    case Rejected => "Application rejected"
  }

  /** For a scored application, the status follows the rating band: a score cannot be approved while rated Poor or Average. */
  lemma StatusAgreesWithRating(d: InputData)
    ensures var (_, score, rating) := Assess(d);
      && (StatusFor(score) == Approved <==> rating == Good || rating == Excellent)
      && (StatusFor(score) == UnderReview <==> rating == Average)
      && (StatusFor(score) == Rejected <==> rating == Poor)
  {
    RatingBands(d);
  }

  // ------------------------------------------------ the user table

  datatype UserKey = EmailKey | MobileKey | AadharKey

  function KeyOf(u: User, k: UserKey): string
  {
    match k
    case EmailKey => u.email
    case MobileKey => u.mobileNumber
    case AadharKey => u.aadhar
  }

  /** Some user holds `value` under key `k`. */
  predicate Taken(users: seq<User>, k: UserKey, value: string)
  {
    exists u :: u in users && KeyOf(u, k) == value
  }

  /** The first user holding `value` under key `k`. */
  function FindUser(users: seq<User>, k: UserKey, value: string): (r: Option<User>)
    ensures r.Some? ==> r.value in users && KeyOf(r.value, k) == value
    ensures r.None? <==> !Taken(users, k, value)
  {
    if users == [] then None
    else if KeyOf(users[0], k) == value then Some(users[0])
    else
      var r := FindUser(users[1..], k, value);
      assert forall u :: u in users ==> u == users[0] || u in users[1..];
      r
  }

  /** The first user with the given id. */
  function FindUserById(users: seq<User>, id: int): (r: Option<User>)
    ensures r.Some? ==> r.value in users && r.value.id == id
    ensures r.None? <==> forall u :: u in users ==> u.id != id
  {
    if users == [] then None
    else if users[0].id == id then Some(users[0])
    else
      var r := FindUserById(users[1..], id);
      assert forall u :: u in users ==> u == users[0] || u in users[1..];
      r
  }

  /** The stored users: ids count from 1 in insertion order, names passed validation, and email, mobile and Aadhaar are unique. */
  predicate UsersWellFormed(users: seq<User>)
  {
    && (forall i :: 0 <= i < |users| ==> users[i].id == i + 1 && 2 <= |users[i].fullName| <= 100)
    && (forall i, j :: 0 <= i < j < |users| ==>
          && users[i].email != users[j].email
          && users[i].mobileNumber != users[j].mobileNumber
          && users[i].aadhar != users[j].aadhar)
  }

  /** With unique keys, the user found under a key is the only one holding it. */
  lemma {:induction false} FindUserUnique(users: seq<User>, k: UserKey, i: int)
    requires UsersWellFormed(users) && 0 <= i < |users|
    ensures FindUser(users, k, KeyOf(users[i], k)) == Some(users[i])
  {
    var r := FindUser(users, k, KeyOf(users[i], k));
    var j :| 0 <= j < |users| && users[j] == r.value;
    assert KeyOf(users[j], k) == KeyOf(users[i], k);
  }

  /** Ids are positions: the user with id `id` exists exactly when 1 <= id <= |users|, and it is `users[id - 1]`. */
  lemma {:induction false} UserIdsArePositions(users: seq<User>, id: int)
    requires UsersWellFormed(users)
    ensures FindUserById(users, id).Some? <==> 1 <= id <= |users|
    ensures FindUserById(users, id).Some? ==> FindUserById(users, id).value == users[id - 1]
  {
    var r := FindUserById(users, id);
    if 1 <= id <= |users| {
      assert users[id - 1] in users;
    }
    if r.Some? {
      var j :| 0 <= j < |users| && users[j] == r.value;
    }
  }

  /** The user an identifier logs in as: by email first, then by mobile number, then by Aadhaar. */
  function Resolve(users: seq<User>, identifier: string): (r: Option<User>)
    ensures r.Some? ==> r.value in users
    ensures Taken(users, EmailKey, identifier) ==> r.Some? && r.value.email == identifier
    ensures !Taken(users, EmailKey, identifier) && Taken(users, MobileKey, identifier) ==>
      r.Some? && r.value.mobileNumber == identifier
    ensures !Taken(users, EmailKey, identifier) && !Taken(users, MobileKey, identifier) ==>
      r == FindUser(users, AadharKey, identifier)
    ensures r.None? <==>
      !Taken(users, EmailKey, identifier) && !Taken(users, MobileKey, identifier) && !Taken(users, AadharKey, identifier)
  {
    match FindUser(users, EmailKey, identifier)
    case Some(u) => Some(u)
    case None =>
      match FindUser(users, MobileKey, identifier)
      case Some(u) => Some(u)
      case None => FindUser(users, AadharKey, identifier)
  }

  // ------------------------------------------------ the application table

  /** The scorer's input for a request, in the order the scorer declares it. */
  function InputOf(r: LoanRequest): (d: InputData)
    ensures d.loanToIncome == LoanToIncome(r.loanAmount, r.income)
    ensures d.age == r.age && d.income == r.income && d.loanAmount == r.loanAmount
    ensures d.loanTenureMonths == r.loanTenureMonths && d.avgDpdPerDelinquency == r.avgDpdPerDelinquency
    ensures d.delinquencyRatio == r.delinquencyRatio && d.creditUtilizationRatio == r.creditUtilizationRatio
    ensures d.numOpenAccounts == r.numOpenAccounts && d.residenceType == r.residenceType
    ensures d.loanPurpose == r.loanPurpose && d.loanType == r.loanType
  {
    PrepareInput(
      r.age, r.income, r.loanAmount, r.loanTenureMonths, r.avgDpdPerDelinquency, r.delinquencyRatio,
      r.creditUtilizationRatio, r.numOpenAccounts, r.residenceType, r.loanPurpose, r.loanType)
  }

  /** A stored verdict is the scorer's verdict on the stored inputs, and the status follows the score. */
  predicate Scored(a: LoanApplication)
  {
    var (p, score, rating) := Assess(InputOf(a.request));
    a.defaultProbability == p && a.creditScore == score && a.rating == rating && a.status == StatusFor(score)
  }

  /** An application by `userId` with all eleven inputs equal to `r` is already stored. */
  predicate HasIdentical(apps: seq<LoanApplication>, userId: int, r: LoanRequest)
    ensures HasIdentical(apps, userId, r) <==>
      exists a :: (
        && a in apps && a.userId == userId
        && a.request.age == r.age && a.request.income == r.income && a.request.loanAmount == r.loanAmount
        && a.request.loanTenureMonths == r.loanTenureMonths && a.request.avgDpdPerDelinquency == r.avgDpdPerDelinquency
        && a.request.delinquencyRatio == r.delinquencyRatio && a.request.creditUtilizationRatio == r.creditUtilizationRatio
        && a.request.numOpenAccounts == r.numOpenAccounts && a.request.residenceType == r.residenceType
        && a.request.loanPurpose == r.loanPurpose && a.request.loanType == r.loanType)
  {
    exists a :: a in apps && a.userId == userId && a.request == r
  }

  /**
   * The stored applications: ids count from 1 in insertion order, each belongs
   * to a stored user, passed validation and carries the scorer's verdict, and
   * no user has two applications with identical inputs.
   */
  predicate ApplicationsWellFormed(apps: seq<LoanApplication>, userCount: int)
  {
    && (forall i :: 0 <= i < |apps| ==>
          && apps[i].id == i + 1
          && 1 <= apps[i].userId <= userCount
          && ValidLoanRequest(apps[i].request)
          && Scored(apps[i]))
    && (forall i, j :: 0 <= i < j < |apps| ==>
          !(apps[i].userId == apps[j].userId && apps[i].request == apps[j].request))
  }

  /** A user's applications, newest first (later insertions were created later). */
  function NewestFirst(apps: seq<LoanApplication>, userId: int): (r: seq<LoanApplication>)
    ensures forall a :: a in r <==> a in apps && a.userId == userId
    ensures |r| <= |apps|
  {
    if apps == [] then []
    else
      var last := apps[|apps| - 1];
      var r := (if last.userId == userId then [last] else []) + NewestFirst(apps[..|apps| - 1], userId);
      assert forall a :: a in apps <==> a in apps[..|apps| - 1] || a == last by {
        assert apps == apps[..|apps| - 1] + [last];
      }
      r
  }

  predicate IdsIncreasing(apps: seq<LoanApplication>)
  {
    forall i, j :: 0 <= i < j < |apps| ==> apps[i].id < apps[j].id
  }

  predicate IdsDecreasing(apps: seq<LoanApplication>)
  {
    forall i, j :: 0 <= i < j < |apps| ==> apps[i].id > apps[j].id
  }

  /** When ids grow with insertion, a user's history lists strictly decreasing ids: the newest comes first. */
  lemma {:induction false} NewestFirstOrdered(apps: seq<LoanApplication>, userId: int)
    requires IdsIncreasing(apps)
    ensures IdsDecreasing(NewestFirst(apps, userId))
  {
    if apps != [] {
      var last := apps[|apps| - 1];
      var init := apps[..|apps| - 1];
      NewestFirstOrdered(init, userId);
      var rest := NewestFirst(init, userId);
      forall a | a in rest ensures a.id < last.id {
        var k :| 0 <= k < |init| && init[k] == a;
        assert apps[k] == a;
      }
      PrependNewest(last, rest, last.userId == userId);
    }
  }

  lemma PrependNewest(last: LoanApplication, rest: seq<LoanApplication>, keep: bool)
    requires IdsDecreasing(rest)
    requires forall a :: a in rest ==> a.id < last.id
    ensures IdsDecreasing((if keep then [last] else []) + rest)
  {
    var r := (if keep then [last] else []) + rest;
    if keep {
      forall i, j | 0 <= i < j < |r| ensures r[i].id > r[j].id {
        assert r[j] == rest[j - 1] && rest[j - 1] in rest;
      }
    } else {
      assert r == rest;
    }
  }

  /** The figures the advisor reads from one application: its score and seven of its inputs. */
  function UserDataOf(a: LoanApplication): (data: CreditImprovement.UserData)
    ensures data.creditScore == a.creditScore && data.income == a.request.income
    ensures data.loanAmount == a.request.loanAmount && data.creditUtilizationRatio == a.request.creditUtilizationRatio
    ensures data.delinquencyRatio == a.request.delinquencyRatio && data.avgDpdPerDelinquency == a.request.avgDpdPerDelinquency
    ensures data.numOpenAccounts == a.request.numOpenAccounts && data.loanTenureMonths == a.request.loanTenureMonths
  {
    CreditImprovement.UserData(
      a.creditScore, a.request.income, a.request.loanAmount, a.request.creditUtilizationRatio,
      a.request.delinquencyRatio, a.request.avgDpdPerDelinquency, a.request.numOpenAccounts,
      a.request.loanTenureMonths)
  }

  /**
   * For a validated request, two of the advisor's branches cannot be taken as
   * written: there is at least one open account, so the history-building
   * advice never appears, and the income is positive, so the debt advice
   * means exactly loan > 3 * income.
   */
  lemma ValidatedAdvice(latest: LoanApplication, history: seq<LoanApplication>)
    requires ValidLoanRequest(latest.request)
    ensures var advices := CreditImprovement.Advices(
        CreditImprovement.DefaultSuggestions(latest.creditScore, UserDataOf(latest), history));
      && CreditImprovement.BuildHistory !in advices
      && (CreditImprovement.HighDebtToIncome in advices <==> latest.request.loanAmount > 3.0 * latest.request.income)
  {
    var data := UserDataOf(latest);
    CreditImprovement.AdviceIffFires(latest.creditScore, data, history);
    assert !CreditImprovement.Fires(CreditImprovement.BuildHistory, latest.creditScore, data, history);
    assert CreditImprovement.Fires(CreditImprovement.HighDebtToIncome, latest.creditScore, data, history)
      <==> latest.request.loanAmount > 3.0 * latest.request.income;
  }

  /** For a validated request the scorer never takes its zero-income fallback: the ratio is loan / income, and positive. */
  lemma ValidatedScorerInput(r: LoanRequest)
    requires ValidLoanRequest(r)
    ensures InputOf(r).loanToIncome * r.income == r.loanAmount
    ensures InputOf(r).loanToIncome > 0.0
  {
    var ratio := InputOf(r).loanToIncome;
    assert ratio * r.income == r.loanAmount;
    assert ratio <= 0.0 ==> ratio * r.income <= 0.0;
  }

  /** Every stored request passed validation, so the newest one of any user does too. */
  lemma StoredLatestValid(apps: seq<LoanApplication>, userId: int)
    requires forall i :: 0 <= i < |apps| ==> ValidLoanRequest(apps[i].request)
    requires NewestFirst(apps, userId) != []
    ensures ValidLoanRequest(NewestFirst(apps, userId)[0].request)
  {
    var latest := NewestFirst(apps, userId)[0];
    assert latest in NewestFirst(apps, userId);
    var k :| 0 <= k < |apps| && apps[k] == latest;
  }

  /** Appending a user with the next id, a valid name and unused keys keeps the user table well formed. */
  lemma AppendUser(users: seq<User>, u: User)
    requires UsersWellFormed(users)
    requires u.id == |users| + 1 && 2 <= |u.fullName| <= 100
    requires !Taken(users, EmailKey, u.email) && !Taken(users, MobileKey, u.mobileNumber) && !Taken(users, AadharKey, u.aadhar)
    ensures UsersWellFormed(users + [u])
  {
    var all := users + [u];
    forall i, j | 0 <= i < j < |all|
      ensures all[i].email != all[j].email && all[i].mobileNumber != all[j].mobileNumber && all[i].aadhar != all[j].aadhar
    {
      if j == |users| {
        assert all[i] == users[i] && users[i] in users;
        assert KeyOf(users[i], EmailKey) != u.email && KeyOf(users[i], MobileKey) != u.mobileNumber;
        assert KeyOf(users[i], AadharKey) != u.aadhar;
      }
    }
  }

  /** Appending a scored, validated, new application with the next id keeps the application table well formed. */
  lemma AppendApplication(apps: seq<LoanApplication>, userCount: int, a: LoanApplication)
    requires ApplicationsWellFormed(apps, userCount)
    requires a.id == |apps| + 1 && 1 <= a.userId <= userCount
    requires ValidLoanRequest(a.request) && Scored(a)
    requires !HasIdentical(apps, a.userId, a.request)
    ensures ApplicationsWellFormed(apps + [a], userCount)
  {
    var all := apps + [a];
    forall i, j | 0 <= i < j < |all|
      ensures !(all[i].userId == all[j].userId && all[i].request == all[j].request)
    {
      if j == |apps| {
        assert all[i] == apps[i] && apps[i] in apps;
      }
    }
  }

  // ------------------------------------------------ the service

  /** The two tables and the handlers that read and extend them. */
  class LoanService {
    var users: seq<User>
    var applications: seq<LoanApplication>

    ghost predicate Valid()
      reads this
    {
      UsersWellFormed(users) && ApplicationsWellFormed(applications, |users|)
    }

    constructor()
      ensures Valid() && users == [] && applications == []
    {
      users := [];
      applications := [];
    }

    /**
     * Registers a user: validation, then the email, mobile and Aadhaar uniqueness checks in that order.
     * `normalizeEmail` is the address as the request schema's email type rewrites it (domain lower-cased,
     * surrounding blanks and any display name dropped); both the email check and the stored user use it.
     */
    method Signup(r: SignupRequest, normalizeEmail: string -> string) returns (result: Result<AuthResponse, Failure>)
      requires Valid()
      modifies this
      ensures Valid() && applications == old(applications)
      ensures result.Err? ==> users == old(users)
      ensures SignupErrors(r) != [] ==> result == Err(SignupInvalid(SignupErrors(r)))
      ensures SignupErrors(r) == [] && Taken(old(users), EmailKey, normalizeEmail(r.email)) ==>
        result == Err(HttpError(400, "Email already registered"))
      ensures (SignupErrors(r) == [] && !Taken(old(users), EmailKey, normalizeEmail(r.email))
        && Taken(old(users), MobileKey, r.mobileNumber)) ==>
        result == Err(HttpError(400, "Mobile number already registered"))
      ensures (SignupErrors(r) == [] && !Taken(old(users), EmailKey, normalizeEmail(r.email))
        && !Taken(old(users), MobileKey, r.mobileNumber) && Taken(old(users), AadharKey, r.aadhar)) ==>
        result == Err(HttpError(400, "Aadhar already registered"))
      ensures result.Ok? <==>
        SignupErrors(r) == [] && !Taken(old(users), EmailKey, normalizeEmail(r.email))
        && !Taken(old(users), MobileKey, r.mobileNumber) && !Taken(old(users), AadharKey, r.aadhar)
      ensures result.Ok? ==>
        var u := User(|old(users)| + 1, r.fullName, normalizeEmail(r.email), r.mobileNumber, r.aadhar, r.password);
        users == old(users) + [u] && result.value == AuthResponse("User registered successfully", ResponseOf(u))
    {
      var errs := SignupErrors(r);
      if errs != [] {
        return Err(SignupInvalid(errs));
      }
      var email := normalizeEmail(r.email);
      if FindUser(users, EmailKey, email).Some? {
        return Err(HttpError(400, "Email already registered"));
      }
      if FindUser(users, MobileKey, r.mobileNumber).Some? {
        return Err(HttpError(400, "Mobile number already registered"));
      }
      if FindUser(users, AadharKey, r.aadhar).Some? {
        return Err(HttpError(400, "Aadhar already registered"));
      }
      var u := User(|users| + 1, r.fullName, email, r.mobileNumber, r.aadhar, r.password);
      AppendUser(users, u);
      users := users + [u];
      result := Ok(AuthResponse("User registered successfully", ResponseOf(u)));
    }

    /** Logs in by email, mobile number or Aadhaar, comparing the stored password as given. */
    method Login(r: LoginRequest) returns (result: Result<AuthResponse, Failure>)
      ensures Resolve(users, r.identifier).None? ==> result == Err(HttpError(401, "User not found"))
      ensures Resolve(users, r.identifier).Some? && Resolve(users, r.identifier).value.password != r.password ==>
        result == Err(HttpError(401, "Invalid password"))
      ensures result.Ok? <==> Resolve(users, r.identifier).Some? && Resolve(users, r.identifier).value.password == r.password
      ensures result.Ok? ==> result.value == AuthResponse("Login successful", ResponseOf(Resolve(users, r.identifier).value))
    {
      var user := FindUser(users, EmailKey, r.identifier);
      if user.None? {
        user := FindUser(users, MobileKey, r.identifier);
      }
      if user.None? {
        user := FindUser(users, AadharKey, r.identifier);
      }
      if user.None? {
        return Err(HttpError(401, "User not found"));
      }
      if user.value.password != r.password {
        return Err(HttpError(401, "Invalid password"));
      }
      result := Ok(AuthResponse("Login successful", ResponseOf(user.value)));
    }

    /** Looks a user up by id. */
    method GetUser(userId: int) returns (result: Result<UserResponse, Failure>)
      requires Valid()
      ensures !(1 <= userId <= |users|) ==> result == Err(HttpError(404, "User not found"))
      ensures 1 <= userId <= |users| ==> result == Ok(ResponseOf(users[userId - 1]))
    {
      UserIdsArePositions(users, userId);
      var user := FindUserById(users, userId);
      if user.None? {
        return Err(HttpError(404, "User not found"));
      }
      result := Ok(ResponseOf(user.value));
    }

    /**
     * Applies for a loan: validation, then an unknown user and an identical
     * earlier application are refused; otherwise the request is scored, given
     * a status by its score and stored.
     */
    method ApplyForLoan(r: LoanRequest, userId: int) returns (result: Result<PredictionResponse, Failure>)
      requires Valid()
      modifies this
      ensures Valid() && users == old(users)
      ensures result.Err? ==> applications == old(applications)
      ensures LoanRequestErrors(r) != [] ==> result == Err(LoanRequestInvalid(LoanRequestErrors(r)))
      ensures LoanRequestErrors(r) == [] && !(1 <= userId <= |users|) ==> result == Err(HttpError(404, "User not found"))
      ensures LoanRequestErrors(r) == [] && 1 <= userId <= |users| && HasIdentical(old(applications), userId, r) ==>
        result == Err(HttpError(400, "Identical application already exists"))
      ensures result.Ok? <==>
        LoanRequestErrors(r) == [] && 1 <= userId <= |users| && !HasIdentical(old(applications), userId, r)
      ensures result.Ok? ==>
        var a := result.value.application;
        && applications == old(applications) + [a]
        && a.id == |old(applications)| + 1 && a.userId == userId && a.request == r
        && Scored(a)
        && result.value.message == StatusMessage(a.status)
        && result.value.loanToIncomeRatio == LoanToIncome(r.loanAmount, r.income)
    {
      var errs := LoanRequestErrors(r);
      if errs != [] {
        return Err(LoanRequestInvalid(errs));
      }
      UserIdsArePositions(users, userId);
      if FindUserById(users, userId).None? {
        return Err(HttpError(404, "User not found"));
      }
      if HasIdentical(applications, userId, r) {
        return Err(HttpError(400, "Identical application already exists"));
      }
      var probability, score, rating := Predict(
        r.age, r.income, r.loanAmount, r.loanTenureMonths, r.avgDpdPerDelinquency, r.delinquencyRatio,
        r.creditUtilizationRatio, r.numOpenAccounts, r.residenceType, r.loanPurpose, r.loanType);
      var status := StatusFor(score);
      var a := LoanApplication(|applications| + 1, userId, r, probability, score, rating, status);
      AppendApplication(applications, |users|, a);
      applications := applications + [a];
      var loanToIncomeRatio := if r.income > 0.0 then r.loanAmount / r.income else 0.0;
      result := Ok(PredictionResponse(StatusMessage(status), a, loanToIncomeRatio));
    }

    /** A user's applications, newest first. */
    method GetUserApplications(userId: int) returns (result: Result<seq<LoanApplication>, Failure>)
      requires Valid()
      ensures !(1 <= userId <= |users|) ==> result == Err(HttpError(404, "User not found"))
      ensures 1 <= userId <= |users| ==> result == Ok(NewestFirst(applications, userId))
      ensures result.Ok? ==> IdsDecreasing(result.value)
    {
      UserIdsArePositions(users, userId);
      if FindUserById(users, userId).None? {
        return Err(HttpError(404, "User not found"));
      }
      NewestFirstOrdered(applications, userId);
      result := Ok(NewestFirst(applications, userId));
    }

    /**
     * Improvement suggestions from the newest application and the whole
     * history; the configured key and the language-model advisor are
     * parameters.
     */
    method GetImprovementSuggestions(
      userId: int, apiKey: Option<string>,
      languageModel: (int, CreditImprovement.UserData, string, seq<LoanApplication>) -> seq<CreditImprovement.Suggestion>)
      returns (result: Result<ImprovementResponse, Failure>)
      requires Valid()
      ensures !(1 <= userId <= |users|) ==> result == Err(HttpError(404, "User not found"))
      ensures 1 <= userId <= |users| && NewestFirst(applications, userId) == [] ==>
        result == Ok(ImprovementResponse(false, NoApplicationMessage, None, None, []))
      ensures 1 <= userId <= |users| && NewestFirst(applications, userId) != [] ==>
        var history := NewestFirst(applications, userId);
        var latest := history[0];
        && result.Ok?
        && result.value.success
        && result.value.message == SuggestionsMessage
        && result.value.creditScore == Some(latest.creditScore)
        && result.value.totalApplications == Some(|history|)
        && (CreditImprovement.UsesLanguageModel(apiKey) ==>
              result.value.suggestions == languageModel(latest.creditScore, UserDataOf(latest), apiKey.value, history))
        && (!CreditImprovement.UsesLanguageModel(apiKey) ==>
              result.value.suggestions == CreditImprovement.DefaultSuggestions(latest.creditScore, UserDataOf(latest), history))
    {
      UserIdsArePositions(users, userId);
      if FindUserById(users, userId).None? {
        return Err(HttpError(404, "User not found"));
      }
      var history := NewestFirst(applications, userId);
      if history == [] {
        return Ok(ImprovementResponse(false, NoApplicationMessage, None, None, []));
      }
      var latest := history[0];
      var suggestions := CreditImprovement.GetCreditImprovementSuggestions(
        latest.creditScore, UserDataOf(latest), history, apiKey, languageModel);
      result := Ok(ImprovementResponse(
        true, SuggestionsMessage,
        Some(latest.creditScore), Some(|history|), suggestions));
    }
  }
}
