/**
 * The documents of the estate-agency database, one datatype per Mongoose
 * model, and the string enumerations those models declare. Each enumeration
 * that arrives from a request body has its schema name and a parser that
 * accepts exactly the names the schema lists.
 */
module Entities {
  import opened Common

  /** The apartment `category` enumeration. */
  datatype Category = Studio | OneBedroom | TwoBedroom | Duplex

  function CategoryName(c: Category): string
  {
    match c
    case Studio => "Studio"
    case OneBedroom => "1-Bedroom"
    case TwoBedroom => "2-Bedroom"
    case Duplex => "Duplex"
  }

  function ParseCategory(s: string): (r: Option<Category>)
    ensures forall c: Category :: r == Some(c) <==> CategoryName(c) == s
  {
    if s == "Studio" then Some(Studio)
    else if s == "1-Bedroom" then Some(OneBedroom)
    else if s == "2-Bedroom" then Some(TwoBedroom)
    else if s == "Duplex" then Some(Duplex)
    else None
  }

  /**
   * The booking `status` values. `Confirmed` is the value the payment
   * settlement writes; whether the booking schema accepts it is
   * `BookingSchemaAcceptsAsWritten` below.
   */
  datatype BookingStatus = Pending | Approved | Rejected | Cancelled | Confirmed

  function BookingStatusName(b: BookingStatus): string
  {
    match b
    case Pending => "pending"
    case Approved => "approved"
    case Rejected => "rejected"
    case Cancelled => "cancelled"
    case Confirmed => "confirmed"
  }

  function ParseBookingStatus(s: string): (r: Option<BookingStatus>)
    ensures forall b: BookingStatus :: r == Some(b) <==> BookingStatusName(b) == s
  {
    if s == "pending" then Some(Pending)
    else if s == "approved" then Some(Approved)
    else if s == "rejected" then Some(Rejected)
    else if s == "cancelled" then Some(Cancelled)
    else if s == "confirmed" then Some(Confirmed)
    else None
  }

  /**
   * The booking status enumeration as the booking schema declares it: it
   * lists pending, approved, rejected and cancelled, and not "confirmed".
   */
  predicate BookingSchemaAcceptsAsWritten(b: BookingStatus)
  {
    b != Confirmed
  }

  /** The booking `paymentStatus` enumeration; `Unpaid` is its default `"pending"`. */
  datatype BookingPayment = Unpaid | Paid | Refunded | PaymentFailed

  /** The payment `status` enumeration. */
  datatype PaymentStatus = PaymentPending | Completed | Failed | PaymentRefunded | RefundPending | PaymentCancelled

  /** The payment `paymentMethod` enumeration. */
  datatype PaymentMethod = Card | BankTransfer | MobileMoney | Cash

  function PaymentMethodName(m: PaymentMethod): string
  {
    match m
    case Card => "card"
    case BankTransfer => "bank_transfer"
    case MobileMoney => "mobile_money"
    case Cash => "cash"
  }

  function ParsePaymentMethod(s: string): (r: Option<PaymentMethod>)
    ensures forall m: PaymentMethod :: r == Some(m) <==> PaymentMethodName(m) == s
  {
    if s == "card" then Some(Card)
    else if s == "bank_transfer" then Some(BankTransfer)
    else if s == "mobile_money" then Some(MobileMoney)
    else if s == "cash" then Some(Cash)
    else None
  }

  /** The inspection `status` enumeration. */
  datatype InspectionStatus = InspectionPending | InspectionApproved | InspectionRejected | InspectionCompleted | InspectionCancelled

  function InspectionStatusName(i: InspectionStatus): string
  {
    match i
    case InspectionPending => "pending"
    case InspectionApproved => "approved"
    case InspectionRejected => "rejected"
    case InspectionCompleted => "completed"
    case InspectionCancelled => "cancelled"
  }

  function ParseInspectionStatus(s: string): (r: Option<InspectionStatus>)
    ensures forall i: InspectionStatus :: r == Some(i) <==> InspectionStatusName(i) == s
  {
    if s == "pending" then Some(InspectionPending)
    else if s == "approved" then Some(InspectionApproved)
    else if s == "rejected" then Some(InspectionRejected)
    else if s == "completed" then Some(InspectionCompleted)
    else if s == "cancelled" then Some(InspectionCancelled)
    else None
  }

  /** The report `reportType` enumeration. */
  datatype ReportType = Fraud | Safety | Condition | Noise | Maintenance | Other | General

  function ReportTypeName(t: ReportType): string
  {
    match t
    case Fraud => "fraud"
    case Safety => "safety"
    case Condition => "condition"
    case Noise => "noise"
    case Maintenance => "maintenance"
    case Other => "other"
    case General => "general"
  }

  function ParseReportType(s: string): (r: Option<ReportType>)
    ensures forall t: ReportType :: r == Some(t) <==> ReportTypeName(t) == s
  {
    if s == "fraud" then Some(Fraud)
    else if s == "safety" then Some(Safety)
    else if s == "condition" then Some(Condition)
    else if s == "noise" then Some(Noise)
    else if s == "maintenance" then Some(Maintenance)
    else if s == "other" then Some(Other)
    else if s == "general" then Some(General)
    else None
  }

  /** The report `status` enumeration. */
  datatype ReportStatus = Open | InProgress | Resolved | Closed | Assigned

  function ReportStatusName(t: ReportStatus): string
  {
    match t
    case Open => "open"
    case InProgress => "in_progress"
    case Resolved => "resolved"
    case Closed => "closed"
    case Assigned => "assigned"
  }

  function ParseReportStatus(s: string): (r: Option<ReportStatus>)
    ensures forall t: ReportStatus :: r == Some(t) <==> ReportStatusName(t) == s
  {
    if s == "open" then Some(Open)
    else if s == "in_progress" then Some(InProgress)
    else if s == "resolved" then Some(Resolved)
    else if s == "closed" then Some(Closed)
    else if s == "assigned" then Some(Assigned)
    else None
  }

  /** The `priority` enumeration shared by reports and notifications. */
  datatype Priority = Low | Medium | High

  function PriorityName(p: Priority): string
  {
    match p
    case Low => "low"
    case Medium => "medium"
    case High => "high"
  }

  function ParsePriority(s: string): (r: Option<Priority>)
    ensures forall p: Priority :: r == Some(p) <==> PriorityName(p) == s
  {
    if s == "low" then Some(Low)
    else if s == "medium" then Some(Medium)
    else if s == "high" then Some(High)
    else None
  }

  /** The agent `status` enumeration. */
  datatype AgentStatus = AgentPending | AgentApproved | AgentRejected

  function AgentStatusName(a: AgentStatus): string
  {
    match a
    case AgentPending => "pending"
    case AgentApproved => "approved"
    case AgentRejected => "rejected"
  }

  function ParseAgentStatus(s: string): (r: Option<AgentStatus>)
    ensures forall a: AgentStatus :: r == Some(a) <==> AgentStatusName(a) == s
  {
    if s == "pending" then Some(AgentPending)
    else if s == "approved" then Some(AgentApproved)
    else if s == "rejected" then Some(AgentRejected)
    else None
  }

  /** The notification `type` enumeration. */
  datatype NotificationType = BookingNote | InspectionNote | ReportNote | PaymentNote | ReviewNote | SystemNote | MessageNote | AlertNote

  function NotificationTypeName(t: NotificationType): string
  {
    match t
    case BookingNote => "booking"
    case InspectionNote => "inspection"
    case ReportNote => "report"
    case PaymentNote => "payment"
    case ReviewNote => "review"
    case SystemNote => "system"
    case MessageNote => "message"
    case AlertNote => "alert"
  }

  function ParseNotificationType(s: string): (r: Option<NotificationType>)
    ensures forall t: NotificationType :: r == Some(t) <==> NotificationTypeName(t) == s
  {
    if s == "booking" then Some(BookingNote)
    else if s == "inspection" then Some(InspectionNote)
    else if s == "report" then Some(ReportNote)
    else if s == "payment" then Some(PaymentNote)
    else if s == "review" then Some(ReviewNote)
    else if s == "system" then Some(SystemNote)
    else if s == "message" then Some(MessageNote)
    else if s == "alert" then Some(AlertNote)
    else None
  }

  /** Notification channel preferences of a user. */
  datatype Preferences = Preferences(email: bool, sms: bool, push: bool, newsletter: bool)

  /** The schema defaults: e-mail, push and newsletter on, SMS off. */
  const DefaultPreferences: Preferences := Preferences(true, false, true, true)

  datatype User = User(name: string, email: string, phone: string, password: string,
                       role: string, preferences: Preferences)

  datatype Agent = Agent(name: string, email: string, phone: string, password: string,
                         certificate: Option<string>, status: AgentStatus)

  /** An administrator; `role` is whatever role field the record carries. */
  datatype Admin = Admin(name: string, email: string, password: string, role: Option<string>)

  /** An apartment; its average rating is kept in tenths (4.3 is 43). */
  datatype Apartment = Apartment(agent: Id, location: string, price: int, category: Category,
                                 description: string, images: seq<string>, availability: bool,
                                 averageTenths: int, totalReviews: nat)

  datatype Booking = Booking(user: Id, apartment: Id, status: BookingStatus, paymentStatus: BookingPayment)

  datatype Payment = Payment(user: Id, apartment: Id, booking: Option<Id>, amount: int,
                             paymentMethod: PaymentMethod, currency: string, transactionId: string,
                             status: PaymentStatus, paidAt: Option<Time>,
                             refundRequested: bool, refundReason: Option<string>,
                             refundRequestedAt: Option<Time>, refundProcessedAt: Option<Time>)

  datatype Inspection = Inspection(user: Id, agent: Id, apartment: Id, date: Time, time: string,
                                   message: Option<string>, status: InspectionStatus,
                                   rejectionReason: Option<string>, completionNotes: Option<string>,
                                   followUpRequired: bool, completedAt: Option<Time>)

  datatype Review = Review(user: Id, apartment: Id, agent: Id, rating: int, comment: string,
                           images: seq<string>, agentResponse: Option<string>, respondedAt: Option<Time>)

  datatype Report = Report(user: Id, apartment: Id, message: string, reportType: ReportType,
                           status: ReportStatus, priority: Priority, createdAt: Time,
                           agentResponse: Option<string>, respondedAt: Option<Time>,
                           resolutionNotes: Option<string>, resolvedAt: Option<Time>,
                           assignedTo: Option<Id>, assignedAt: Option<Time>,
                           escalated: bool, escalationNotes: Option<string>, escalatedAt: Option<Time>)

  datatype Favorite = Favorite(user: Id, apartment: Id, notes: string, tags: seq<string>)

  datatype Notification = Notification(user: Id, notificationType: NotificationType, title: string,
                                       message: string, priority: Priority, isRead: bool,
                                       isArchived: bool, relatedId: Option<Id>, broadcast: bool)

  /**
   * The authenticated caller as a handler sees it: `req.user._id`, the role
   * field of the caller's own record (`req.user.role`; agent records have
   * none), the status field of that record (`req.user.status`; only agent
   * records have one) and the role claim of the token (`req.role`).
   */
  datatype Principal = Principal(id: Id, roleField: Option<string>,
                                 statusField: Option<AgentStatus>, tokenRole: string)

  /** `req.user.role === r`. */
  predicate HasRole(p: Principal, r: string)
  {
    p.roleField == Some(r)
  }
}
