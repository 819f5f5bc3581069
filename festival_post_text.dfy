/**
 * The fixed texts of `POST /api/festival-post`: the response messages and
 * the wording of its two prompts.
 */
module FestivalPostText {
  const UsedModel: string := "gpt-image-1"
  const SuccessMessage: string := "Festival greeting image generated successfully"
  const RequiredFieldsError: string := "Company name, " + "festival name, and logo are required"
  const NoImageMessage: string := "No festival image " + "was generated"
  /** The `TypeError` thrown when the `logo` entry is text, which has no
      `arrayBuffer` method. */
  const NoBufferMessage: string := "logoFile.arrayBuffer is not a function"
  const ModerationErrorMessage: string :=
    "Your request " + "was flagged by content moderation. Please revise your input."
  const ConfigurationErrorMessage: string := "API configuration error. Please contact support."
  const GenericErrorMessage: string := "Failed to generate festival image. Please try again."

  /** The fixed wording of the route's prompts, everything but the
      interpolated values: the greeting prompt, the theme descriptions
      (`otherTheme` follows the name of a festival without a theme of its
      own) and the frame of the fallback prompt. `RouteWording` is the
      route's; the properties proved in `FestivalPost` hold for any wording. */
  datatype FestivalWording = FestivalWording(
    title: string, designFor: string, symbols: string, positioning: string,
    greetingLead: string, focalPoint: string, contactHeader: string, technical: string,
    diwaliTheme: string, holiTheme: string, republicDayTheme: string, independenceDayTheme: string,
    otherTheme: string,
    fallbackIntro: string, fallbackCompany: string, fallbackGreeting: string, fallbackFont: string,
    fallbackClosing: string)

  const RouteWording: FestivalWording := FestivalWording(
    "Create a stunning, professional festival greeting that looks like it was crafted by an expert graphic designer for ",
    ":\n\n1. FESTIVAL THEME (HIGHEST PRIORITY):\n   - Create a beautiful, culturally authentic design for \"",
    "\"\n   - Include traditional cultural symbols and elements representing ",
    "\n   - Use a color palette traditionally associated with this festival\n"
    + "   - Maintain a professional, premium look suitable for business communication\n"
    + "\n"
    + "2. EXACT ELEMENT POSITIONING (FOLLOW PRECISELY):\n"
    + "   - Company name \"",
    "\" must be at the TOP-LEFT of the design\n"
    + "   - Company logo should be placed prominently in the TOP-LEFT corner\n"
    + "   - The festival greeting \"",
    "\" must be a prominent focal point",
    "\n\n3. CONTACT INFORMATION (BOTTOM SECTION):",
    "\n\n4. TECHNICAL EXCELLENCE & STYLING:\n"
    + "   - Create a balanced, harmonious composition with proper visual hierarchy\n"
    + "   - Use fonts that are both festive and professional, ensuring perfect readability\n"
    + "   - Apply subtle design elements that enhance the festive mood without overwhelming\n"
    + "   - Ensure all text has perfect contrast against its background\n"
    + "   - The final image should look like a premium corporate greeting\n"
    + "\n"
    + "The final result must follow the specified layout with company branding at top-left, festival greeting "
    + "as focal point, and contact details at the bottom. The design should appear festive yet professional, "
    + "suitable for business-to-client communication.",
    "Festival of Lights with diyas, lanterns, and vibrant colors",
    "Festival of Colors with vibrant color splashes and celebrations",
    "Indian Republic Day with patriotic symbolism (tricolor flag, monuments like Red Fort, India Gate, etc.)",
    "Indian Independence Day with patriotic symbols (tricolor flag, monuments, historic imagery)",
    " celebration with cultural symbols and festive elements",
    "\nCreate a clean, professional festival greeting design with the following elements:\n"
    + "- Create a festive, culturally appropriate background for \"",
    "\"\n- Include text for company name \"",
    "\" prominently at the top\n- Add the greeting for \"",
    "\" in an attractive, festive font\n",
    "\n\nDesign this as a clean, professional festival greeting with balanced layout.\n"
    + "Ensure all text is clearly readable and the design has a festive, cultural theme.\n")
}
