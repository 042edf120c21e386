/**
 * What the router hands to and takes from the components: the current
 * location, the state a navigation carries, and the element a route guard
 * renders.
 */
module Routing {
  import opened Common

  datatype Location = Location(pathname: string, search: string, hash: string)

  /** The `state` of a navigation; the guards only ever set `from`. */
  datatype NavState = NavState(from: Option<Location>)

  /** A `navigate(to, { replace })` call. */
  datatype Navigation = Navigation(to: string, replace: bool)

  /** A guard's output: the spinner, a `<Navigate>` element, or the wrapped page. */
  datatype Element = Spinner | Navigate(to: string, state: Option<NavState>, replace: bool) | Children
}
