/** The records the storefront exchanges with its REST API
    (src/types/product.types.ts, cart.types.ts, order.types.ts,
    common.types.ts). JavaScript numbers that hold money are exact `real`s;
    counts and quantities are `int`s. */
module Types {
  import opened Wrappers

  datatype Category = Category(id: string, name: string, description: string, imageUrl: Option<string>)

  datatype Condition = New | Refurbished | Used

  datatype Product = Product(
    id: string,
    name: string,
    description: string,
    price: real,
    originalPrice: Option<real>,
    imageUrl: string,
    category: Category,
    brand: string,
    compatibility: seq<string>,
    condition: Condition,
    stock: int,
    ratings: real,
    reviewCount: int,
    specifications: map<string, string>,
    createdAt: string)

  /** One line of a cart: `quantity` units of `product`. */
  datatype CartItem = CartItem(id: string, product: Product, quantity: int)

  /** The server's cart; `totalItems` and `totalAmount` are computed by the
      server and only displayed by the client. */
  datatype Cart = Cart(id: string, userId: string, items: seq<CartItem>, totalItems: int, totalAmount: real)

  datatype Role = UserRole | AdminRole

  datatype User = User(
    id: string,
    email: string,
    firstName: string,
    lastName: string,
    role: Role,
    phone: string,
    createdAt: string)

  datatype OrderStatus = Placed | Confirmed | Packed | Shipped | Delivered | Cancelled

  /** The string the server and the UI use for a status. */
  function StatusName(s: OrderStatus): string {
    match s
    case Placed => "PLACED"
    case Confirmed => "CONFIRMED"
    case Packed => "PACKED"
    case Shipped => "SHIPPED"
    case Delivered => "DELIVERED"
    case Cancelled => "CANCELLED"
  }

  datatype PaymentMethod = Mpesa | CashOnDelivery

  datatype PaymentStatus = Pending | Completed | PaymentFailed

  datatype ShippingAddress = ShippingAddress(
    firstName: string,
    lastName: string,
    email: string,
    phone: string,
    address: string,
    city: string,
    country: string)

  datatype OrderItem = OrderItem(
    id: string,
    productId: string,
    productName: string,
    productImage: string,
    quantity: int,
    unitPrice: real,
    totalPrice: real)

  datatype Order = Order(
    id: string,
    userId: string,
    orderNumber: string,
    items: seq<OrderItem>,
    totalAmount: real,
    status: OrderStatus,
    shippingAddress: ShippingAddress,
    paymentMethod: PaymentMethod,
    paymentStatus: PaymentStatus,
    createdAt: string,
    updatedAt: string)

  /** The catalog query; an absent field (`undefined`) places no constraint. */
  datatype ProductFilter = ProductFilter(
    categories: Option<seq<string>>,
    brands: Option<seq<string>>,
    minPrice: Option<real>,
    maxPrice: Option<real>,
    conditions: Option<seq<string>>,
    compatibility: Option<seq<string>>)

  /** The filter `{}`. */
  const EmptyFilter := ProductFilter(None, None, None, None, None, None)

  datatype LoginCredentials = LoginCredentials(email: string, password: string)

  datatype SignupCredentials = SignupCredentials(
    firstName: string,
    lastName: string,
    email: string,
    password: string,
    phone: string)

  /** The body of a successful login or signup. */
  datatype AuthResponse = AuthResponse(token: string, user: User)

  /** `item.quantity * item.product.price`, the amount shown beside a cart line. */
  function LineTotal(item: CartItem): (r: real)
    ensures item.quantity >= 0 && item.product.price >= 0.0 ==> r >= 0.0
  {
    item.quantity as real * item.product.price
  }

  /** One more unit on a line adds exactly one unit price to its displayed total. */
  lemma LineTotalStep(item: CartItem)
    ensures LineTotal(item.(quantity := item.quantity + 1)) == LineTotal(item) + item.product.price
  {
  }
}
