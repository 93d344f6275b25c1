/** The success payloads of the endpoints, one constructor per response shape. */
module Responses {
  import opened Models
  import opened Tokens

  datatype Response =
    | Auth(accessToken: Jwt)
    | Register(accessToken: Jwt)
    | RegisterAdmin
    | NewPassword
    | Refreshed(accessToken: Jwt)
    | Upgrade(accessToken: Jwt)
    | Save
    | Load(data: Data)
    | Page(page: int, pages: int, count: nat, users: seq<User>)
    | OneUser(user: User)
    | Delete(deleted: string)
    | Unban(unbanned: string)
    | Ban(banned: string)
}
