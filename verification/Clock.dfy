/** Instants and spans are counted in milliseconds. */
module Clock {
  const SECOND := 1000
}
