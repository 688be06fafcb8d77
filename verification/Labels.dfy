/** Names built from user names and game types (internal/util). */
module Labels {

  function UserNamespace(username: string): string {
    "user-" + username
  }
}
