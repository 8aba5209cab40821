/**
 * The records the simulated API stores hold, with the fields the services
 * and pages read. Money is in integer cents, dates (check-in, check-out,
 * booking creation) are day numbers and timestamps (`createdAt` of a
 * notification, `processedAt`, `uploadDate`) are instants; see `Clock`.
 *
 * An `update(id, data)` call in the services merges `data` into the stored
 * record with `{ ...old, ...data }`: a patch holds `Some(v)` for every field
 * `data` carries, and `Id` is among the fields it may carry.
 */
module Domain {
  import opened Outcomes

  datatype RoomStatus = Available | Occupied | Maintenance | Cleaning
  datatype BookingStatus = Pending | Confirmed | Cancelled
  datatype PaymentStatus = Paid | Pending | Overdue
  datatype NotificationType = CheckIn | CheckOut | Maintenance | Payment | System
  datatype Priority = High | Medium | Low
  datatype PaymentState = Completed | Failed

  /** The status string a room carries (`room.status`). */
  function RoomStatusName(s: RoomStatus): string
  {
    match s
    case Available => "available"
    case Occupied => "occupied"
    case Maintenance => "maintenance"
    case Cleaning => "cleaning"
  }

  datatype Room = Room(
    Id: int, roomNumber: string, kind: string, capacity: int,
    currentOccupancy: int, pricePerBed: int, status: RoomStatus)

  datatype RoomPatch = RoomPatch(
    Id: Option<int>, roomNumber: Option<string>, kind: Option<string>, capacity: Option<int>,
    currentOccupancy: Option<int>, pricePerBed: Option<int>, status: Option<RoomStatus>)

  function MergeRoom(r: Room, p: RoomPatch): Room
  {
    Room(p.Id.GetOr(r.Id), p.roomNumber.GetOr(r.roomNumber), p.kind.GetOr(r.kind),
         p.capacity.GetOr(r.capacity), p.currentOccupancy.GetOr(r.currentOccupancy),
         p.pricePerBed.GetOr(r.pricePerBed), p.status.GetOr(r.status))
  }

  datatype Resident = Resident(
    Id: int, name: string, email: string, phone: string, roomId: string, bedNumber: string,
    checkInDate: int, checkOutDate: int, paymentStatus: PaymentStatus)

  datatype ResidentPatch = ResidentPatch(
    Id: Option<int>, name: Option<string>, email: Option<string>, phone: Option<string>,
    roomId: Option<string>, bedNumber: Option<string>, checkInDate: Option<int>,
    checkOutDate: Option<int>, paymentStatus: Option<PaymentStatus>)

  function MergeResident(r: Resident, p: ResidentPatch): Resident
  {
    Resident(p.Id.GetOr(r.Id), p.name.GetOr(r.name), p.email.GetOr(r.email), p.phone.GetOr(r.phone),
             p.roomId.GetOr(r.roomId), p.bedNumber.GetOr(r.bedNumber), p.checkInDate.GetOr(r.checkInDate),
             p.checkOutDate.GetOr(r.checkOutDate), p.paymentStatus.GetOr(r.paymentStatus))
  }

  datatype Booking = Booking(
    Id: int, roomId: string, checkInDate: int, checkOutDate: int, status: BookingStatus,
    paymentStatus: PaymentStatus, totalAmount: int, createdAt: int)

  datatype BookingPatch = BookingPatch(
    Id: Option<int>, roomId: Option<string>, checkInDate: Option<int>, checkOutDate: Option<int>,
    status: Option<BookingStatus>, paymentStatus: Option<PaymentStatus>, totalAmount: Option<int>,
    createdAt: Option<int>)

  function MergeBooking(b: Booking, p: BookingPatch): Booking
  {
    Booking(p.Id.GetOr(b.Id), p.roomId.GetOr(b.roomId), p.checkInDate.GetOr(b.checkInDate),
            p.checkOutDate.GetOr(b.checkOutDate), p.status.GetOr(b.status),
            p.paymentStatus.GetOr(b.paymentStatus), p.totalAmount.GetOr(b.totalAmount),
            p.createdAt.GetOr(b.createdAt))
  }

  datatype Notification = Notification(
    Id: int, title: string, message: string, kind: NotificationType, priority: Priority,
    relatedId: Option<int>, isRead: bool, createdAt: int)

  /** What a caller passes to `notificationService.create`. */
  datatype NotificationDraft = NotificationDraft(
    title: string, message: string, kind: NotificationType, priority: Priority, relatedId: Option<int>)

  datatype NotificationPatch = NotificationPatch(
    Id: Option<int>, title: Option<string>, message: Option<string>, kind: Option<NotificationType>,
    priority: Option<Priority>, relatedId: Option<Option<int>>, isRead: Option<bool>,
    createdAt: Option<int>)

  function MergeNotification(n: Notification, p: NotificationPatch): Notification
  {
    Notification(p.Id.GetOr(n.Id), p.title.GetOr(n.title), p.message.GetOr(n.message),
                 p.kind.GetOr(n.kind), p.priority.GetOr(n.priority), p.relatedId.GetOr(n.relatedId),
                 p.isRead.GetOr(n.isRead), p.createdAt.GetOr(n.createdAt))
  }

  datatype Payment = Payment(
    Id: int, residentId: int, amount: int, paymentMethod: string, description: string,
    details: map<string, string>, transactionId: string, status: PaymentState, processedAt: int,
    processingFee: int, netAmount: int, originalPaymentId: Option<int>)

  /** What the payment form hands to `paymentService.processPayment`. */
  datatype PaymentRequest = PaymentRequest(
    residentId: int, amount: int, paymentMethod: string, description: string, details: map<string, string>)

  /** A document record; `fileSize` may be missing from a stored record. */
  datatype Document = Document(
    Id: int, fileName: string, originalName: string, fileType: string, fileSize: Option<int>,
    residentId: int, category: string, uploadDate: int, filePath: string)

  /**
   * The data passed to `documentService.update`. It may name `Id`,
   * `uploadDate` and `filePath`, but the service drops those three.
   */
  datatype DocumentPatch = DocumentPatch(
    Id: Option<int>, fileName: Option<string>, originalName: Option<string>, fileType: Option<string>,
    fileSize: Option<Option<int>>, residentId: Option<int>, category: Option<string>,
    uploadDate: Option<int>, filePath: Option<string>)

  /** A file as the browser's `File` object describes it. */
  datatype FileInfo = FileInfo(name: string, fileType: string, size: int)
}
