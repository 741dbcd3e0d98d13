/**
 * The records of the marketplace (users, produce listings, messages,
 * conversations, notifications, farm profiles) and the application constants.
 * Dates are integer millisecond timestamps and prices are integer cents.
 */
module Types {
  import opened Wrappers

  /** `UserRole`: 'farmer', 'buyer' or 'none'. */
  datatype UserRole = Farmer | Buyer | NoRole

  /** The lifecycle state of a listing. */
  datatype ProduceStatus = Active | SoldOut | Expired | Draft

  /** The wire spelling of a status, as the listing record stores it. */
  function StatusText(s: ProduceStatus): string {
    match s
    case Active => "active"
    case SoldOut => "sold_out"
    case Expired => "expired"
    case Draft => "draft"
  }

  datatype NotificationType = PriceAlert | BuyerMatch | NewMessage | ListingUpdate | SystemTip | Welcome

  datatype User = User(
    id: string,
    name: string,
    email: string,
    role: UserRole,
    location: Option<string>,
    farmName: Option<string>,
    businessName: Option<string>,
    businessType: Option<string>,
    farmDescription: Option<string>,
    produceInterests: Option<seq<string>>,
    profilePictureUrl: Option<string>,
    farmStory: Option<string>,
    createdAt: int)

  datatype Produce = Produce(
    id: string,
    farmerId: string,
    farmerName: Option<string>,
    farmName: Option<string>,
    name: string,
    category: string,
    description: string,
    price: int,
    unit: string,
    quantityAvailable: int,
    harvestDate: Option<string>,
    availabilityDateFrom: Option<string>,
    availabilityDateTo: Option<string>,
    photos: seq<string>,
    location: string,
    tags: seq<string>,
    status: ProduceStatus,
    views: Option<int>,
    inquiries: Option<int>,
    createdAt: int,
    updatedAt: int)

  datatype Message = Message(
    id: string,
    conversationId: string,
    senderId: string,
    receiverId: string,
    text: string,
    timestamp: int,
    read: bool)

  datatype Conversation = Conversation(
    id: string,
    participantIds: seq<string>,
    participantNames: map<string, string>,
    lastMessage: Option<Message>,
    produceId: Option<string>,
    produceName: Option<string>,
    unreadCount: Option<int>,
    updatedAt: int)

  datatype Notification = Notification(
    id: string,
    userId: string,
    kind: NotificationType,
    title: string,
    message: string,
    link: Option<string>,
    timestamp: int,
    read: bool)

  /**
   * A farm profile. `farmName` and `location` are copied from the user with a
   * non-null assertion that JavaScript does not check, so they can be missing.
   */
  datatype FarmProfile = FarmProfile(
    farmerId: string,
    farmName: Option<string>,
    farmerName: string,
    profilePictureUrl: string,
    farmStory: string,
    location: Option<string>,
    practices: seq<string>,
    memberSince: int,
    currentListings: seq<Produce>,
    primaryProduce: seq<string>)

  // Application routes.
  const LANDING := "/"
  const REGISTER := "/register"
  const LOGIN := "/login"
  const ABOUT_US := "/about"
  const HELP := "/help-faq"
  const FARMER_DASHBOARD := "/farmer/dashboard"
  const MY_PRODUCE := "/farmer/my-produce"
  const ADD_PRODUCE := "/farmer/produce/add"
  const EDIT_PRODUCE := "/farmer/produce/edit"
  const FARMER_MARKET_INSIGHTS := "/farmer/market-insights"
  const FARMER_CONNECTIONS := "/farmer/connections"
  const BUYER_DASHBOARD := "/buyer/dashboard"
  const MARKETPLACE := "/marketplace"
  const PRODUCE_DETAIL := "/produce"
  const FARMER_PROFILE := "/farmer"
  const BUYER_CONNECTIONS := "/buyer/connections"
  const PROFILE := "/profile"
  const NOTIFICATIONS := "/notifications"
  const MESSAGES := "/messages"

  const PRODUCE_CATEGORIES: seq<string> :=
    ["Vegetable", "Fruit", "Herb", "Dairy", "Eggs", "Bakery", "Meat", "Flowers", "Other"]
  const PRODUCE_UNITS: seq<string> :=
    ["kg", "lb", "piece", "bunch", "dozen", "liter", "gallon", "jar", "box", "crate"]

  const DEFAULT_USER_PROFILE_PIC := "https://picsum.photos/seed/defaultuser/200/200"
  const DEFAULT_PRODUCE_IMAGE := "https://picsum.photos/seed/defaultproduce/400/300"
  const DEFAULT_FARM_IMAGE := "https://picsum.photos/seed/defaultfarm/600/400"
}
