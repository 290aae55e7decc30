/** The device key-value store as an in-memory object: one field per key the
    core screens use. A key that was never written reads as the field's empty
    value, as `value ? JSON.parse(value) : []` does. */
module Storage {
  import opened Wrappers
  import opened Entities

  class Store {
    /** key 'cartItems' */
    var cartItems: seq<CartLine>
    /** key 'favorites' */
    var favorites: seq<Product>
    /** key 'collections' */
    var collections: seq<Collection>
    /** keys 'reviews_<product id>' */
    var reviews: map<string, seq<Review>>
    /** key 'user'; None when no record was ever written */
    var user: Option<User>

    /** A fresh install: nothing has been written. */
    constructor ()
      ensures cartItems == [] && favorites == [] && collections == []
      ensures reviews == map[] && user == None
    {
      cartItems, favorites, collections := [], [], [];
      reviews, user := map[], None;
    }

    /** The reviews list a product page loads, empty when its key is unset. */
    function ReviewsOf(productId: string): (r: seq<Review>)
      reads this
      ensures productId !in reviews ==> r == []
    {
      if productId in reviews then reviews[productId] else []
    }
  }
}
