/**
 * The fixed texts of `POST /api/festivals/generate`.
 */
module GenerateText {
  const DefaultBaseUrl: string := "https://autopost.example.com"
  const DefaultExtension: string := "jpg"
  const DefaultCustomText: string := "Happy Festival!"
  const DefaultTemplate: string := "default"
  const MissingFieldsError: string := "Festival ID and company " + "information are required"
  const GeneratedMessage: string := "Festival post generated " + "successfully"
  const IdPrefix: string := "festival_"
}
