/**
 * Request validation for the HTTP API (backend/schemas.py): the declarative
 * field constraints of the signup and loan-application requests, and the
 * password-confirmation validator, as validity predicates and as the list of
 * failures that validation reports.
 */
module Schemas {

  datatype SignupRequest = SignupRequest(
    fullName: string,
    email: string,
    mobileNumber: string,
    aadhar: string,
    password: string,
    confirmPassword: string)

  /** A login identifier may be an email, a mobile number or an Aadhaar number. */
  datatype LoginRequest = LoginRequest(identifier: string, password: string)

  /** The eleven inputs of a loan application, in the order the API declares them. */
  datatype LoanRequest = LoanRequest(
    age: int,
    income: real,
    loanAmount: real,
    loanTenureMonths: int,
    avgDpdPerDelinquency: real,
    delinquencyRatio: real,
    creditUtilizationRatio: real,
    numOpenAccounts: int,
    residenceType: string,
    loanPurpose: string,
    loanType: string)

  // ---------------------------------------------------------------- signup

  datatype SignupError = FullNameTooShort | FullNameTooLong | PasswordsDoNotMatch

  /** A signup request is acceptable when the name has 2 to 100 characters and both passwords agree. */
  predicate ValidSignup(r: SignupRequest)
  {
    2 <= |r.fullName| <= 100 && r.password == r.confirmPassword
  }

  /** Every constraint the signup request breaks, in field order (validation reports them all). */
  function SignupErrors(r: SignupRequest): (errs: seq<SignupError>)
    ensures errs == [] <==> ValidSignup(r)
    ensures PasswordsDoNotMatch in errs <==> r.password != r.confirmPassword
    ensures FullNameTooShort in errs <==> |r.fullName| < 2
    ensures FullNameTooLong in errs <==> |r.fullName| > 100
    ensures FullNameTooShort in errs ==> FullNameTooLong !in errs
  {
    (if |r.fullName| < 2 then [FullNameTooShort] else [])
    + (if |r.fullName| > 100 then [FullNameTooLong] else [])
    + (if r.password != r.confirmPassword then [PasswordsDoNotMatch] else [])
  }

  // ---------------------------------------------------------- loan request

  datatype LoanField =
    | Age | Income | LoanAmount | LoanTenureMonths | AvgDpdPerDelinquency
    | DelinquencyRatio | CreditUtilizationRatio | NumOpenAccounts
    | ResidenceType | LoanPurpose | LoanType

  /** The fields of a loan request in declaration order. */
  const LoanFields: seq<LoanField> := [
    Age, Income, LoanAmount, LoanTenureMonths, AvgDpdPerDelinquency,
    DelinquencyRatio, CreditUtilizationRatio, NumOpenAccounts,
    ResidenceType, LoanPurpose, LoanType]

  const ResidenceTypes: set<string> := {"Owned", "Rented", "Mortgage"}
  const LoanPurposes: set<string> := {"Education", "Home", "Auto", "Personal"}
  const LoanTypes: set<string> := {"Secured", "Unsecured"}

  /** The constraint attached to one field of a loan request. */
  predicate FieldValid(r: LoanRequest, f: LoanField)
  {
    match f
    case Age => 18 <= r.age <= 100
    case Income => r.income > 0.0
    case LoanAmount => r.loanAmount > 0.0
    case LoanTenureMonths => r.loanTenureMonths > 0
    case AvgDpdPerDelinquency => r.avgDpdPerDelinquency >= 0.0
    case DelinquencyRatio => 0.0 <= r.delinquencyRatio <= 100.0
    case CreditUtilizationRatio => 0.0 <= r.creditUtilizationRatio <= 100.0
    case NumOpenAccounts => 1 <= r.numOpenAccounts <= 10
    case ResidenceType => r.residenceType in ResidenceTypes
    case LoanPurpose => r.loanPurpose in LoanPurposes
    case LoanType => r.loanType in LoanTypes
  }

  /** Every field of a loan request appears in LoanFields. */
  lemma AllFieldsListed()
    ensures forall f: LoanField :: f in LoanFields
  {
    forall f: LoanField ensures f in LoanFields {
      match f
      case Age => assert LoanFields[0] == f;
      case Income => assert LoanFields[1] == f;
      case LoanAmount => assert LoanFields[2] == f;
      case LoanTenureMonths => assert LoanFields[3] == f;
      case AvgDpdPerDelinquency => assert LoanFields[4] == f;
      case DelinquencyRatio => assert LoanFields[5] == f;
      case CreditUtilizationRatio => assert LoanFields[6] == f;
      case NumOpenAccounts => assert LoanFields[7] == f;
      case ResidenceType => assert LoanFields[8] == f;
      case LoanPurpose => assert LoanFields[9] == f;
      case LoanType => assert LoanFields[10] == f;
    }
  }

  /** A loan request the API accepts, stated as one conjunction. */
  predicate ValidLoanRequest(r: LoanRequest)
  {
    && 18 <= r.age <= 100
    && r.income > 0.0
    && r.loanAmount > 0.0
    && r.loanTenureMonths > 0
    && r.avgDpdPerDelinquency >= 0.0
    && 0.0 <= r.delinquencyRatio <= 100.0
    && 0.0 <= r.creditUtilizationRatio <= 100.0
    && 1 <= r.numOpenAccounts <= 10
    && r.residenceType in ResidenceTypes
    && r.loanPurpose in LoanPurposes
    && r.loanType in LoanTypes
  }

  /** The one-conjunction validity and the per-field constraints agree. */
  lemma ValidIffEveryField(r: LoanRequest)
    ensures ValidLoanRequest(r) <==> forall f :: FieldValid(r, f)
  {
    if forall f :: FieldValid(r, f) {
      assert FieldValid(r, Age) && FieldValid(r, Income) && FieldValid(r, LoanAmount);
      assert FieldValid(r, LoanTenureMonths) && FieldValid(r, AvgDpdPerDelinquency);
      assert FieldValid(r, DelinquencyRatio) && FieldValid(r, CreditUtilizationRatio);
      assert FieldValid(r, NumOpenAccounts) && FieldValid(r, ResidenceType);
      assert FieldValid(r, LoanPurpose) && FieldValid(r, LoanType);
    }
  }

  /** The fields among `fields` whose constraint `r` breaks, in order. */
  function InvalidFields(r: LoanRequest, fields: seq<LoanField>): (errs: seq<LoanField>)
    ensures forall f :: f in errs <==> f in fields && !FieldValid(r, f)
    ensures |errs| <= |fields|
  {
    if fields == [] then []
    else (if FieldValid(r, fields[0]) then [] else [fields[0]]) + InvalidFields(r, fields[1..])
  }

  /** Every field constraint the loan request breaks; none exactly when the request is valid. */
  function LoanRequestErrors(r: LoanRequest): (errs: seq<LoanField>)
    ensures errs == [] <==> ValidLoanRequest(r)
    ensures forall f :: f in errs <==> !FieldValid(r, f)
  {
    var errs := InvalidFields(r, LoanFields);
    AllFieldsListed();
    ValidIffEveryField(r);
    assert errs != [] ==> errs[0] in errs;
    errs
  }
}
