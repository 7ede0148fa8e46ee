/** The closed set of company archetypes and their string tags. */
module CompanyTypes {
  import opened Wrappers

  datatype CompanyType =
    | TechPlatform
    | TechMature
    | PharmaInnovation
    | PharmaMature
    | Financial
    | Manufacturing
  {
    /** The enumeration value, which is also its string form. */
    function Tag(): string {
      match this
      case TechPlatform => "TECH_PLATFORM"
      case TechMature => "TECH_MATURE"
      case PharmaInnovation => "PHARMA_INNOVATION"
      case PharmaMature => "PHARMA_MATURE"
      case Financial => "FINANCIAL"
      case Manufacturing => "MANUFACTURING"
    }
  }

  const AllTags: set<string> :=
    {"TECH_PLATFORM", "TECH_MATURE", "PHARMA_INNOVATION", "PHARMA_MATURE", "FINANCIAL", "MANUFACTURING"}

  /** The archetype a tag names, if any. The enumeration derives from `str`,
      so a plain string equal to a value compares equal to that member. */
  function Parse(tag: string): (t: Option<CompanyType>)
    ensures t.Some? <==> tag in AllTags
    ensures t.Some? ==> t.value.Tag() == tag
  {
    if tag == "TECH_PLATFORM" then Some(TechPlatform)
    else if tag == "TECH_MATURE" then Some(TechMature)
    else if tag == "PHARMA_INNOVATION" then Some(PharmaInnovation)
    else if tag == "PHARMA_MATURE" then Some(PharmaMature)
    else if tag == "FINANCIAL" then Some(Financial)
    else if tag == "MANUFACTURING" then Some(Manufacturing)
    else None
  }

  /** Every archetype's tag parses back to it. */
  lemma ParseTag(t: CompanyType)
    ensures Parse(t.Tag()) == Some(t)
  {
  }
}
