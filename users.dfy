/**
 * The user record of types/user.ts and the seed user both mock auth routes
 * start from. The `createdAt`/`updatedAt` timestamps come from the clock and
 * are not modelled.
 */
module Users {
  import opened Options

  datatype User = User(id: string, name: string, email: string, avatar: Option<string>)

  /** The one user both route files declare in their `mockUsers` arrays. */
  const JohnDoe: User := User("1", "John Doe", "john@example.com",
    Some("https://images.unsplash.com/photo-1472099645785-5658abf4ff4e?w=32&h=32&fit=crop&crop=face"))

  /**
   * A request body field passes the `!field` test: it is present and, being
   * a string, not empty.
   */
  predicate Given(field: Option<string>) {
    field.Some? && field.value != ""
  }
}
