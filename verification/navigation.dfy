/** The client-side routes and the transient state a navigation carries to
    the next view (`location.state`). */
module Navigation {
  import opened Outcomes

  /** `/`, `/register` and `/document-chat`. */
  datatype Route = HomeRoute | RegisterRoute | DocumentChatRoute

  /** The keys a navigation may put in `location.state`; a key that was not
      passed reads as `None`. */
  datatype RouteState = RouteState(fileUrl: Option<string>, documentId: Option<int>, fileContent: Option<string>)

  /** A navigation without state (also what a view sees when it is opened directly). */
  const NoState := RouteState(None, None, None)

  /** A navigation: the route it goes to and the state it carries. */
  datatype Nav = Navigate(to: Route, state: RouteState)
}
