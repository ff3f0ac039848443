/**
 * A project's card (the ProjectCard component): the badge style and the
 * border accent chosen from the project's platform, ignoring case.
 */
module ProjectCard {
  import Text

  /** The colour families the card uses. */
  datatype Family = Blue | Green | Purple | Orange | Gray

  /** The platform names, in lower case, of each coloured family. */
  const CursorNames: set<string> := {"cursor", "cursor-ai"}
  const AugmentNames: set<string> := {"augmentcode", "augment-code", "augment_code"}

  /** The `switch` both style helpers make, on an already lower-cased platform name. */
  function FamilyOfLower(p: string): Family {
    if p == "cursor" || p == "cursor-ai" then Blue
    else if p == "augmentcode" || p == "augment-code" || p == "augment_code" then Green
    else if p == "cline" then Purple
    else if p == "roocode" then Orange
    else Gray
  }

  /** The family of a platform, by its lower-cased name. */
  function Classify(platform: string): Family {
    FamilyOfLower(Text.ToLower(platform))
  }

  /** The badge classes of each family. */
  const BlueBadge := "bg-blue-50 border-blue-200 text-blue-700 hover:bg-blue-100"
  const GreenBadge := "bg-green-50 border-green-200 text-green-700 hover:bg-green-100"
  const PurpleBadge := "bg-purple-50 border-purple-200 text-purple-700 hover:bg-purple-100"
  const OrangeBadge := "bg-orange-50 border-orange-200 text-orange-700 hover:bg-orange-100"
  const GrayBadge := "bg-gray-50 border-gray-200 text-gray-700 hover:bg-gray-100"

  function BadgeOf(f: Family): string {
    match f
    case Blue => BlueBadge
    case Green => GreenBadge
    case Purple => PurpleBadge
    case Orange => OrangeBadge
    case Gray => GrayBadge
  }

  function BorderOf(f: Family): string {
    match f
    case Blue => "border-l-blue-500"
    case Green => "border-l-green-500"
    case Purple => "border-l-purple-500"
    case Orange => "border-l-orange-500"
    case Gray => "border-l-gray-500"
  }

  /** `getToolBadgeStyles`: the switch over the lower-cased platform. */
  function ToolBadgeStyles(platform: string): string {
    BadgeStylesOfLower(Text.ToLower(platform))
  }

  /** The badge switch: every case picks the badge of the family `FamilyOfLower` assigns. */
  function BadgeStylesOfLower(p: string): (r: string)
    ensures r == BadgeOf(FamilyOfLower(p))
  {
    if p == "cursor" || p == "cursor-ai" then BlueBadge
    else if p == "augmentcode" || p == "augment-code" || p == "augment_code" then GreenBadge
    else if p == "cline" then PurpleBadge
    else if p == "roocode" then OrangeBadge
    else GrayBadge
  }

  /** `getBorderAccentColor`: the switch over the lower-cased platform. */
  function BorderAccentColor(platform: string): string {
    BorderAccentOfLower(Text.ToLower(platform))
  }

  /** The border switch: every case picks the accent of the family `FamilyOfLower` assigns. */
  function BorderAccentOfLower(p: string): (r: string)
    ensures r == BorderOf(FamilyOfLower(p))
  {
    if p == "cursor" || p == "cursor-ai" then "border-l-blue-500"
    else if p == "augmentcode" || p == "augment-code" || p == "augment_code" then "border-l-green-500"
    else if p == "cline" then "border-l-purple-500"
    else if p == "roocode" then "border-l-orange-500"
    else "border-l-gray-500"
  }

  /** The badge and the border accent of a platform belong to the same colour family. */
  lemma SameFamily(platform: string)
    ensures ToolBadgeStyles(platform) == BadgeOf(Classify(platform))
    ensures BorderAccentColor(platform) == BorderOf(Classify(platform))
  {
  }

  /** Classification ignores case: platforms equal up to case get the same styles. */
  lemma CaseInsensitive(platform: string, other: string)
    requires Text.ToLower(platform) == Text.ToLower(other)
    ensures ToolBadgeStyles(platform) == ToolBadgeStyles(other)
    ensures BorderAccentColor(platform) == BorderAccentColor(other)
  {
  }

  /** Lower-casing a platform first changes nothing. */
  lemma LowerCasedSame(platform: string)
    ensures Classify(Text.ToLower(platform)) == Classify(platform)
  {
    Text.ToLowerIdempotent(platform);
  }

  /** The Cursor aliases, in any case, are blue. */
  lemma CursorAliases()
    ensures Classify("cursor") == Blue && Classify("Cursor-AI") == Blue
  {
    assert Text.ToLower("cursor") == "cursor";
    assert Text.ToLower("Cursor-AI") == "cursor-ai";
  }

  /** The three spellings of Augment Code, in any case, are green. */
  lemma AugmentAliases()
    ensures Classify("AugmentCode") == Green && Classify("augment-code") == Green && Classify("AUGMENT_CODE") == Green
  {
    assert Text.ToLower("AugmentCode") == "augmentcode";
    assert Text.ToLower("augment-code") == "augment-code";
    assert Text.ToLower("AUGMENT_CODE") == "augment_code";
  }

  /** Cline is purple, RooCode orange, and an unlisted or empty platform gray. */
  lemma OtherFamilies()
    ensures Classify("Cline") == Purple && Classify("RooCode") == Orange
    ensures Classify("claude") == Gray && Classify("") == Gray
  {
    assert Text.ToLower("Cline") == "cline";
    assert Text.ToLower("RooCode") == "roocode";
    assert Text.ToLower("claude") == "claude";
  }

  /** Every platform outside the listed names, in any case, gets the gray default. */
  lemma OthersAreGray(platform: string)
    requires Text.ToLower(platform) !in CursorNames + AugmentNames + {"cline", "roocode"}
    ensures ToolBadgeStyles(platform) == BadgeOf(Gray) && BorderAccentColor(platform) == BorderOf(Gray)
  {
    UnlistedIsGray(Text.ToLower(platform));
  }

  lemma UnlistedIsGray(p: string)
    requires p !in CursorNames + AugmentNames + {"cline", "roocode"}
    ensures FamilyOfLower(p) == Gray
  {
  }
}
