/** The account records the client reads from the auth and database layer.
    Only their shapes are modelled; the client that fetches them is abstract. */
module Records {
  import opened Wrappers

  /** The signed-in account; only the fields the core reads */
  datatype User = User(id: string, email: Option<string>)

  /** An auth session, opaque to the core */
  datatype Session = Session(accessToken: string)

  /** A row of the `profiles` table */
  datatype Profile = Profile(
    id: string,
    stylePrimary: seq<string>,
    mainContext: Option<string>,
    preferenceBalance: Option<string>,
    improvementGoals: seq<string>,
    isPremium: bool)
}
