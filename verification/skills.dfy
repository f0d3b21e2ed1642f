/** The three skills of the playground, by the identifiers the skill selector
    uses and that history entries carry. */
module Skills {

  const Conversation: string := "conversation"
  const Image: string := "image"
  const DocumentUrl: string := "document-url"

  predicate IsKnownSkill(skill: string) {
    skill == Conversation || skill == Image || skill == DocumentUrl
  }
}
