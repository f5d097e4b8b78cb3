/** The database records the core reads and updates (database/models.py).
    Records whose fields are updated in place (products, stores, alerts,
    notifications) are classes; records that are only appended and read
    (price history rows, scrape logs, schedules) are values. Times are
    seconds as `real`; datetime.utcnow() is always a `now` parameter. */
module Models {
  import opened Common
  import opened JsonValue
  import Strategies

  datatype ProductStatus = Active | Paused | ErrorStatus | NeedsAttention | PriceUnavailable | Archived

  datatype AlertType = TargetPrice | PercentDrop | AnyChange | BackInStock
  {
    /** The enum's string value. */
    function Value(): string
    {
      match this
      case TargetPrice => "target_price"
      case PercentDrop => "percent_drop"
      case AnyChange => "any_change"
      case BackInStock => "back_in_stock"
    }
  }

  datatype NotificationStatus = Pending | Sent | Failed

  /** ScrapeErrorType. */
  datatype ScrapeErrorType =
    | NetworkFailure | Timeout | Blocked | ParseFailure | PriceValidation
    | StructureChange | NotFound | RobotsBlocked

  /** The enum's string value, as stored in scrape logs. */
  function ScrapeErrorValue(t: ScrapeErrorType): string
  {
    match t
    case NetworkFailure => "network_error"
    case Timeout => "timeout"
    case Blocked => "blocked"
    case ParseFailure => "parse_failure"
    case PriceValidation => "price_validation"
    case StructureChange => "structure_change"
    case NotFound => "not_found"
    case RobotsBlocked => "robots_blocked"
  }

  /** A tracked product. */
  class Product {
    var id: int
    var url: string
    var storeDomain: string
    var name: string
    var brand: Option<string>
    var upc: Option<string>
    var imageUrl: Option<string>
    var currentPrice: Option<real>
    var originalPrice: Option<real>
    var currency: string
    var inStock: bool
    var status: ProductStatus
    var consecutiveFailures: int
    var lastCheckedAt: Option<real>
    var canonicalId: Option<int>
    var deletedAt: Option<real>
    var updatedAt: real

    /** Product(...) with the model's defaults for everything not given. */
    constructor(id: int, url: string, storeDomain: string, name: string, now: real)
      ensures this.id == id && this.url == url && this.storeDomain == storeDomain && this.name == name
      ensures brand.None? && upc.None? && imageUrl.None? && currentPrice.None? && originalPrice.None?
      ensures currency == "CAD" && inStock && status == Active && consecutiveFailures == 0
      ensures lastCheckedAt.None? && canonicalId.None? && deletedAt.None? && updatedAt == now
    {
      this.id := id;
      this.url := url;
      this.storeDomain := storeDomain;
      this.name := name;
      brand := None;
      upc := None;
      imageUrl := None;
      currentPrice := None;
      originalPrice := None;
      currency := "CAD";
      inStock := true;
      status := Active;
      consecutiveFailures := 0;
      lastCheckedAt := None;
      canonicalId := None;
      deletedAt := None;
      updatedAt := now;
    }
  }

  /** Everything about a product except its monitoring state (status,
      failure count, last check, deletion and update times). */
  datatype ProductDetails = ProductDetails(
    id: int, url: string, storeDomain: string, name: string, brand: Option<string>,
    upc: Option<string>, imageUrl: Option<string>, currentPrice: Option<real>,
    originalPrice: Option<real>, currency: string, inStock: bool, canonicalId: Option<int>)

  function Details(p: Product): ProductDetails
    reads p
  {
    ProductDetails(p.id, p.url, p.storeDomain, p.name, p.brand, p.upc, p.imageUrl,
                   p.currentPrice, p.originalPrice, p.currency, p.inStock, p.canonicalId)
  }

  /** A store; its domain is the primary key. `selectors` is JNull for None. */
  class Store {
    var domain: string
    var name: string
    var isWhitelisted: bool
    var isActive: bool
    var selectors: Json
    var rateLimitRpm: int
    var successRate: real
    var lastSuccessAt: Option<real>
    var createdAt: real
    var updatedAt: real

    /** Store(...) with success_rate 1.0, no last success and both
        timestamps at construction time. */
    constructor(domain: string, name: string, isWhitelisted: bool, isActive: bool,
                rateLimitRpm: int, selectors: Json, now: real)
      ensures this.domain == domain && this.name == name && this.isWhitelisted == isWhitelisted
      ensures this.isActive == isActive && this.rateLimitRpm == rateLimitRpm && this.selectors == selectors
      ensures successRate == 1.0 && lastSuccessAt.None? && createdAt == now && updatedAt == now
    {
      this.domain := domain;
      this.name := name;
      this.isWhitelisted := isWhitelisted;
      this.isActive := isActive;
      this.rateLimitRpm := rateLimitRpm;
      this.selectors := selectors;
      successRate := 1.0;
      lastSuccessAt := None;
      createdAt := now;
      updatedAt := now;
    }
  }

  /** A price alert. */
  class Alert {
    var id: int
    var productId: int
    var alertType: AlertType
    var targetValue: Option<real>
    var minChangeThreshold: real
    var isActive: bool
    var isTriggered: bool
    var triggeredAt: Option<real>
    var deletedAt: Option<real>

    constructor(id: int, productId: int, alertType: AlertType, targetValue: Option<real>, minChangeThreshold: real)
      ensures this.id == id && this.productId == productId && this.alertType == alertType
      ensures this.targetValue == targetValue && this.minChangeThreshold == minChangeThreshold
      ensures isActive && !isTriggered && triggeredAt.None? && deletedAt.None?
    {
      this.id := id;
      this.productId := productId;
      this.alertType := alertType;
      this.targetValue := targetValue;
      this.minChangeThreshold := minChangeThreshold;
      isActive := true;
      isTriggered := false;
      triggeredAt := None;
      deletedAt := None;
    }
  }

  /** A notification delivery record. */
  class Notification {
    var id: int
    var alertId: Option<int>
    var productId: int
    var status: NotificationStatus
    var payload: Json
    var sentAt: Option<real>
    var errorMessage: Option<string>
    var createdAt: real

    /** A new record starts PENDING. */
    constructor(id: int, alertId: Option<int>, productId: int, payload: Json, now: real)
      ensures this.id == id && this.alertId == alertId && this.productId == productId && this.payload == payload
      ensures status == Pending && sentAt.None? && errorMessage.None? && createdAt == now
    {
      this.id := id;
      this.alertId := alertId;
      this.productId := productId;
      this.payload := payload;
      status := Pending;
      sentAt := None;
      errorMessage := None;
      createdAt := now;
    }
  }

  datatype PriceHistory = PriceHistory(productId: int, price: real, originalPrice: Option<real>, inStock: bool, scrapedAt: real)

  datatype ScrapeLog = ScrapeLog(
    productId: int,
    success: bool,
    strategyUsed: Option<Strategies.StrategyKind>,
    errorType: Option<ScrapeErrorType>,
    errorMessage: Option<string>,
    responseTimeMs: Option<int>,
    scrapedAt: real)

  /** A monitoring schedule, for a product or for a whole store. */
  datatype Schedule = Schedule(
    id: int,
    productId: Option<int>,
    storeDomain: Option<string>,
    cronExpression: string,
    isActive: bool,
    lastRunAt: Option<real>,
    nextRunAt: Option<real>,
    deletedAt: Option<real>,
    createdAt: real,
    updatedAt: real)
}
