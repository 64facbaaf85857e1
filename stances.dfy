/** The stance codes positions are stored with (defined alongside the
    position records, which are not part of this model). */
module Stances {
  const SUPPORT: string := "SUPPORT"
  const OPPOSE: string := "OPPOSE"
}
