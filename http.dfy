/**
 * What the client sends to the backend. Base URLs and headers are left out:
 * a request is its verb, its path below the API root and its JSON body.
 */
module Http {

  import opened Js

  datatype Verb = Get | Post | Put | Patch | Delete

  /** The JSON bodies the client builds, one constructor per shape. */
  datatype Body =
    | NoBody
      /** `{userId}`: create a cart. */
    | UserIdBody(userId: int)
      /** `{menuItemId, quantity}`: add a line to a cart. */
    | AddItemBody(menuItemId: int, quantity: int)
      /** `{quantity}`: set the quantity of a cart line. */
    | QuantityBody(quantity: int)
      /** `{status}`: set an order's status by name. */
    | StatusNameBody(status: string)
      /** `{statusId}`: set an order's status by id. */
    | StatusIdBody(statusId: int)
      /** `{login, password}`: sign in. */
    | CredentialsBody(login: string, password: string)
      /** The new-user record of the registration form. */
    | NewUserBody(login: string, fullName: string, birthDate: string, phone: string,
                  email: string, passwordHash: string, roleId: int)

  datatype Request = Request(verb: Verb, path: string, body: Body)

  /** The one request a service call sends, and how the call settles. */
  datatype ServiceCall<+T> = ServiceCall(request: Request, outcome: Outcome<T>)
}
