/**
 What the client code sees of the backend SDK: the records it reads, the outcome of
 one awaited call (resolved with data, or rejected), and the calls it issues. The
 service's own behaviour (filtering, sorting, cascading deletes, sessions) is not
 modelled; every call's outcome is an input to the operation that awaits it.
 */
module Sdk {

  /** Record ids. JavaScript object keys are strings, so `menuItems[id]` and
      `{ [id]: ... }` both work on the id's string form. */
  type Id = string

  datatype User = User(id: Id, name: string, email: string)

  datatype Restaurant = Restaurant(id: Id, name: string, description: string)

  /** `price` is kept as the service returns it; the model never does arithmetic on it. */
  datatype MenuItem = MenuItem(id: Id, name: string, description: string, price: string)

  /** An awaited SDK promise: resolved with `data`, or rejected with an error message. */
  datatype Outcome<T> = Ok(data: T) | Failed(message: string)

  /** One request sent to the backend, in the form the client code builds it. */
  datatype Call =
    | FindRestaurants(owner: Id)
    | FindMenuItems(restaurant: Id)
    | CreateRestaurant(name: string, owner: Id)
    | DeleteRestaurant(id: Id)
    | CreateMenuItem(name: string, description: string, priceText: string, restaurant: Id, owner: Id)
    | DeleteMenuItem(id: Id)
    | Login(email: string, password: string)
    | Me
    | Signup(name: string, email: string, password: string)
    | Logout
}
