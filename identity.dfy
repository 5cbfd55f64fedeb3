/** The user record the frontend shows: what `GET /users/me` returns and what the session holds. */
module Identity {
  datatype User = User(id: string, email: string, name: string, createdAt: string)
}
