/**
 * The fixed texts of `POST /api/festivals/schedule`.
 */
module ScheduleText {
  const MissingFieldsError: string := "Festival ID, image URL, and at least one " + "delivery channel are required"
  const NoValidChannelError: string := "At least one valid delivery channel " + "(whatsapp or email) is required"
  const ScheduledMessage: string := "Festival post scheduled " + "for delivery"
  const IdPrefix: string := "schedule_"
}
