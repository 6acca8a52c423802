/** The colour constants of the site theme (src/styles/theme.ts) that the modelled components read. */
module Theme {
  const Primary: string := "#8B4513"
  const Secondary: string := "#6B8E23"
  const Highlight: string := "#CD853F"
  /** Eight hex digits: the last two are an alpha channel. */
  const LightText: string := "#F5F5DC99"
}
