/** Identifiers as the GraphQL client sees them: the `ID` scalar arrives as a string. */
module GraphIds {
  type GraphId = string
}
