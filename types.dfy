/** The records of the storefront: catalogue products, cart lines and chat messages. */
module Types {

  datatype Option<T> = None | Some(value: T)

  /** The closed set of product categories. */
  datatype Category = PC | Peripherals | Audio | Furniture | Components | Software

  /** The string a category is stored and compared as. */
  function CategoryName(c: Category): (s: string)
    ensures s != "All"
  {
    match c
    case PC => "PC"
    case Peripherals => "Peripherals"
    case Audio => "Audio"
    case Furniture => "Furniture"
    case Components => "Components"
    case Software => "Software"
  }

  lemma CategoryNameInjective(a: Category, b: Category)
    ensures CategoryName(a) == CategoryName(b) <==> a == b
  {
  }

  /** A catalogue entry. `price` is in cents and `rating` in tenths of a star,
      so that sums over the cart are exact. */
  datatype Product = Product(
    id: string,
    name: string,
    category: Category,
    price: int,
    description: string,
    image: string,
    specs: seq<string>,
    rating: int,
    isNew: Option<bool>)

  /** A cart line: the product as it was when first added, and how many. */
  datatype CartItem = CartItem(product: Product, quantity: int)

  datatype Role = User | Model

  /** One turn of the assistant chat; `timestamp` is the clock reading at creation. */
  datatype Message = Message(role: Role, text: string, timestamp: int)
}
