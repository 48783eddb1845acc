/**
 * The records of the retail console (types.ts), plus the engagement-suite
 * records that types.ts does not declare but EngagementManager.tsx uses
 * (attachments, email templates, CES features, loyalty configuration).
 * Prices, totals and eco figures are reals; counts are integers.
 * Dates, images and logos are not modelled.
 */
module Types {
  import opened Wrappers

  datatype Role = AdminRole | MerchantRole

  datatype View =
    | Dashboard | Pos | Inventory | MerchantMgmt | DeviceMgmt | AdsMgmt
    | ReceiptMgmt | CarbonMgmt | LoyaltyMgmt | Customers | Support

  datatype Packaging = Plastic | Paper | Reusable | Biodegradable

  datatype Product = Product(
    id: string,
    name: string,
    price: real,
    category: string,
    stock: int,
    ecoScore: int,
    packaging: Packaging,
    carbonFootprint: real)

  datatype TicketStatus = Open | InProgress | Closed
  datatype Priority = Low | Medium | High

  datatype Ticket = Ticket(
    id: string,
    merchantId: string,
    branchId: string,
    deviceId: string,
    subject: string,
    status: TicketStatus,
    priority: Priority)

  datatype Sim = Sim(iccid: string, carrier: string, signalStrength: int, dataUsed: string)

  datatype DeviceStatus = Online | Offline | Maintenance | PoweredOff

  datatype Device = Device(
    id: string,
    serial: string,
    model: string,
    version: string,
    status: DeviceStatus,
    sim: Option<Sim>,
    batteryLevel: Option<int>)

  datatype Branch = Branch(id: string, name: string, location: string, devices: seq<Device>)

  datatype MerchantCategory = Grocery | Fashion | Tech | Cafe

  /** An email attachment (EngagementManager.tsx:63). */
  datatype Attachment = Attachment(id: string, name: string, size: string, kind: string)

  /** A lifecycle email template; `lastUpdated` is not modelled. */
  datatype EmailTemplate = EmailTemplate(
    subject: string,
    body: string,
    bannerImage: Option<string>,
    attachments: Option<seq<Attachment>>)

  /**
   * A lifecycle-email feature: `isLicensed` is set by the administrator,
   * `isActive` by the merchant; `parentId` links a feature to its parent.
   */
  datatype CesFeature = CesFeature(
    id: string,
    name: string,
    description: string,
    parentId: Option<string>,
    isLicensed: bool,
    isActive: bool,
    template: EmailTemplate)

  datatype MarketingPeriod = Daily | Weekly | Monthly

  datatype CesConfig = CesConfig(features: seq<CesFeature>, marketingPeriod: MarketingPeriod)

  datatype LoyaltyKind = Visit | Spend

  datatype StampDesign = StampDesign(slots: int, color: string, icon: string)

  datatype CouponDesign = CouponDesign(backgroundColor: string, textColor: string, discountValue: string, prefix: string)

  datatype LoyaltyConfig = LoyaltyConfig(
    kind: LoyaltyKind,
    threshold: int,
    reward: string,
    stampDesign: Option<StampDesign>,
    couponDesign: Option<CouponDesign>)

  datatype Merchant = Merchant(
    id: string,
    name: string,
    email: string,
    category: MerchantCategory,
    branches: seq<Branch>,
    selectedNGOs: seq<string>,
    offsetEnabled: bool,
    offsetMatching: bool,
    loyaltyConfig: LoyaltyConfig,
    cesConfig: CesConfig)

  /** One line of a recorded sale. */
  datatype TxItem = TxItem(productId: string, quantity: int, price: real, carbon: real)

  /** A recorded sale; the timestamp and the optional customer are not modelled. */
  datatype Transaction = Transaction(
    id: string,
    items: seq<TxItem>,
    total: real,
    ecoImpactSaved: real,
    carbonOffsetContribution: real,
    isMatched: bool)

  datatype Customer = Customer(id: string, name: string, email: string, visitCount: int, totalSpend: real)
}
