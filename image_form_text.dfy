/**
 * The fixed texts of the image generation form.
 */
module ImageFormText {
  const RequiredFieldsMessage: string := "Please fill all required fields " + "and upload an image."
  const RequestFailedMessage: string := "Failed to generate image"
  const UnknownErrorMessage: string := "Unknown error"
  const DownloadFailedMessage: string := "Failed to download image"
  const DownloadSuffix: string := "-marketing-image.jpg"
  const WhatsAppFailedMessage: string := "Failed to send WhatsApp message"
  const WhatsAppErrorPrefix: string := "Failed to send WhatsApp: "
}
