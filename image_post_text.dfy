/**
 * The fixed texts of `POST /api/image-post`: the response messages and the
 * wording of its two prompts.
 */
module ImagePostText {
  const UsedModel: string := "gpt-image-1"
  const SuccessMessage: string := "Marketing image generated successfully"
  const RequiredFieldsError: string := "Company name, " + "product name, price, and image are required"
  const NoImageMessage: string := "No image was generated"
  /** The `TypeError` thrown when the `image` entry is text, which has no
      `arrayBuffer` method. */
  const NoBufferMessage: string := "imageFile.arrayBuffer is not a function"
  const ModerationErrorMessage: string :=
    "Your request " + "was flagged by content moderation. Please revise your input or try a different image."
  const ConfigurationErrorMessage: string := "API configuration error. Please contact support."
  const GenericErrorMessage: string := "Failed to generate marketing image. Please try again."

  const OpeningHead: string :=
    "Create a stunning, professional marketing poster that looks like it was crafted by an expert graphic designer:\n"
    + "\n"
    + "1. SUBJECT TREATMENT (HIGHEST PRIORITY):\n"
    + "   - Keep the original subject 100% UNCHANGED - preserve exact appearance, positioning and all details\n"
    + "   - Do NOT modify, filter, stylize or alter the original subject in ANY way\n"
    + "   - Maintain all original colors, textures, reflections and details of the subject perfectly\n"
    + "\n"
    + "2. ELEMENT POSITIONING (MAINTAIN CONSISTENT PLACEMENT):"

  const BeverageText: string :=
    "\n\n3. BEVERAGE-SPECIFIC ENHANCEMENTS:\n"
    + "   - Center the beverage as the focal point\n"
    + "   - Remove the original background completely\n"
    + "   - Keep whipped cream, garnishes, and toppings visible and appetizing\n"
    + "   - Add subtle steam effects for hot drinks or condensation for cold drinks\n"
    + "   - Enhance beverage colors for visual appeal"

  const FoodText: string :=
    "\n\n3. FOOD-SPECIFIC ENHANCEMENTS:\n"
    + "   - Center the food item as the focal point\n"
    + "   - Remove the original background completely\n"
    + "   - Enhance food textures and colors for appetite appeal\n"
    + "   - Add steam effects for hot items or fresh appearance for cold items\n"
    + "   - Ensure the food looks perfectly prepared"

  const GeneralText: string :=
    "\n\n3. DYNAMIC DESIGN ELEMENTS (USE AI REASONING FOR BEST RESULTS):\n"
    + "   - Choose the best fonts, colors, and styling based on the specific product and overall design\n"
    + "   - Determine the optimal size, weight, and visual treatment for each text element\n"
    + "   - Apply professional design techniques that best complement this specific product\n"
    + "   - Use your reasoning to create a cohesive color palette that enhances this particular subject\n"
    + "   - Adapt the background style to suit this specific product while keeping text positions fixed"

  const TechnicalText: string :=
    "\n\n4. TECHNICAL EXCELLENCE:\n"
    + "   - Maintain exact original aspect ratio\n"
    + "   - Keep safe margins for all text to prevent any edge cropping\n"
    + "   - Ensure perfect readability of all text at various viewing sizes\n"
    + "   - Create pixel-perfect alignment of all design elements\n"
    + "\n"
    + "The final result must look like it was created by a professional graphic designer with years of "
    + "experience in marketing design, with impeccable attention to detail, perfect visual balance, and a "
    + "high-end aesthetic while keeping the original subject completely untouched."

  /** The fixed wording of the full prompt, everything but the interpolated
      fields; `Marketing` is the route's. The properties proved in `ImagePost`
      hold for any wording. */
  datatype MarketingWording = MarketingWording(
    head: string, beverage: string, food: string, general: string, technical: string)

  const Marketing: MarketingWording := MarketingWording(OpeningHead, BeverageText, FoodText, GeneralText, TechnicalText)

  const ElementsIntro: string :=
    "\nCreate a clean, professional marketing design with the following elements:\n"
    + "- Preserve the main subject completely intact, maintaining all details and characteristics\n"
    + "- Add a subtle, elegant background that complements the subject\n"

  const ClosingText: string :=
    "\n\nDesign this as a clean, minimalist but professional marketing poster with balanced layout.\n"
    + "Ensure all text is placed within safe margins away from edges to prevent cropping.\n"
}
