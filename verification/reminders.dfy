/** The record shapes the data layer hands around. */
module Reminders {
  import opened Results

  /** A Kotlin `Double` carried as opaque payload: the decimal literal it was
      written as. Coordinates are copied, compared and stored, never computed on. */
  datatype Double = Double(literal: string)

  /** Reminder ids are opaque strings; how fresh ones are generated is not modelled. */
  type ReminderId = string

  /** The storage representation of a reminder. */
  datatype ReminderDTO = ReminderDTO(
    title: Option<string>,
    description: Option<string>,
    location: Option<string>,
    latitude: Option<Double>,
    longitude: Option<Double>,
    id: ReminderId)

  /** The UI-facing representation of a reminder; same fields as the DTO. */
  datatype ReminderDataItem = ReminderDataItem(
    title: Option<string>,
    description: Option<string>,
    location: Option<string>,
    latitude: Option<Double>,
    longitude: Option<Double>,
    id: ReminderId)
}
