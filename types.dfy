/** The application's shared data types (types.ts). */
module Types {

  datatype Option<+T> = None | Some(value: T)

  /** The four inquiry categories a submission can carry. */
  datatype Category = General | Sales | Support | Feedback

  /** One persisted submission. `device` is a free string in the stored
      document: records written by this application hold "Mobile" or
      "Desktop", but the document accepts any value. `timestamp` is epoch
      milliseconds. */
  datatype FormResponse = FormResponse(
    id: string,
    name: string,
    email: string,
    category: Category,
    message: string,
    timestamp: int,
    device: string)

  /** The part of a FormResponse the user types in: a FormResponse without
      id, timestamp and device. The submission form's state has this shape. */
  datatype ResponseInput = ResponseInput(
    name: string,
    email: string,
    category: Category,
    message: string)

  /** The four screens of the application. */
  datatype AppView = Intro | Form | AdminLogin | AdminDashboard

  /** What the persistence adapter reports back to the form. */
  datatype StorageResult = StorageResult(success: bool, message: string)
}
