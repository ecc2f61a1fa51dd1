/** The two teams of a match config, in config order (MatchConfigLoader.cs requires exactly two). */
module MatchTeams {
  datatype Team = A | B

  function Other(t: Team): Team {
    if t == A then B else A
  }
}
