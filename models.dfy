/**
 * The two stored records of the service (backend/models.py): a registered
 * user and a scored loan application.
 */
module Models {
  import opened Schemas
  import opened PredictionHelper

  /** A registered user; the password is kept as given, in plain text. */
  datatype User = User(
    id: int,
    fullName: string,
    email: string,
    mobileNumber: string,
    aadhar: string,
    password: string)

  /** The column default is Pending; the application handler assigns one of the other three. */
  datatype Status = Pending | Approved | UnderReview | Rejected

  /** A loan application: the request's eleven inputs and the scorer's verdict. */
  datatype LoanApplication = LoanApplication(
    id: int,
    userId: int,
    request: LoanRequest,
    defaultProbability: real,
    creditScore: int,
    rating: Rating,
    status: Status)
}
