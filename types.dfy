/**
 * The shared records of the storefront (src/types/index.ts). Rows read from
 * the database keep their text columns as strings, since the database and
 * the forms may hold values outside the declared unions (a 'diamond'
 * product, a 'pending' order); the unions themselves are enumerations with
 * their spellings.
 */
module Types {
  import opened Wrappers

  datatype MetalType = Gold | Silver {
    function Spelling(): string {
      match this
      case Gold => "gold"
      case Silver => "silver"
    }
  }

  datatype Purity = K22 | K24 | K18 | K14 | Sterling | Pure {
    function Spelling(): string {
      match this
      case K22 => "22K"
      case K24 => "24K"
      case K18 => "18K"
      case K14 => "14K"
      case Sterling => "92.5"
      case Pure => "pure"
    }
  }

  datatype MakingChargeType = Percentage | Fixed {
    function Spelling(): string {
      match this
      case Percentage => "percentage"
      case Fixed => "fixed"
    }
  }

  datatype OrderStatus = Processing | Shipped | Delivered | Cancelled {
    function Spelling(): string {
      match this
      case Processing => "processing"
      case Shipped => "shipped"
      case Delivered => "delivered"
      case Cancelled => "cancelled"
    }
  }

  datatype Product = Product(
    id: string,
    name: string,
    description: Option<string>,
    metal_type: string,
    purity: string,
    weight: real,
    making_charge_type: string,
    making_charge_value: real,
    stock: int,
    is_featured: bool,
    created_at: string,
    images: Option<seq<string>>)

  datatype MetalRate = MetalRate(
    id: string,
    metal_type: string,
    purity: string,
    rate_per_gram: real,
    updated_at: string)

  datatype Order = Order(
    id: string,
    user_id: Option<string>,
    total_amount: real,
    payment_status: string,
    payment_method: Option<string>,
    order_status: string,
    shipping_address: Option<string>,
    created_at: string)

  datatype CartItem = CartItem(product: Product, quantity: int, currentPrice: real)

  /** A user of the authentication service. */
  datatype AuthUser = AuthUser(id: string, email: Option<string>)

  datatype Profile = Profile(
    id: string,
    full_name: Option<string>,
    phone: Option<string>,
    role: string,
    created_at: string)
}
