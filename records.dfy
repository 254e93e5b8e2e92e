/** Record shapes shared by the store slices and the pages. The records themselves come
    from the application's mock data module; only the fields the modelled code reads are kept. */
module Records {

  /** JavaScript's `null`/`undefined` versus a present value. */
  datatype Option<+T> = None | Some(value: T)

  type StudentId = string

  /** The calendar day a payment's ISO-8601 timestamp falls on. Parsing and time zones are
      abstracted away: two payments are on the same day exactly when their keys are equal. */
  datatype Day = Day(key: int)

  datatype FeeStatus = Unpaid | Partial | Paid

  datatype Student = Student(
    studentId: StudentId,
    grNumber: string,
    fullName: string,
    phone: string,
    totalFees: int,
    feesPaid: int,
    feeStatus: FeeStatus)

  datatype PaymentMode = Cash | Card | UPI | OtherMode

  datatype Payment = Payment(
    id: string,
    paymentId: string,
    studentId: StudentId,
    studentName: string,
    amount: int,
    day: Day,
    paymentMode: PaymentMode,
    transactionRef: string)

  /** The value the credential check hands back and the auth slice stores. */
  datatype User = User(employeeId: string, name: string, role: string)
}
