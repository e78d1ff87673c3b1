/** The records and enumerations shared by the screens of the image generator
    (types.ts). Text is `string`; identifiers and timestamps are opaque values
    handed in by the caller. */
module Types {

  datatype Option<+T> = None | Some(value: T)

  /** The three aspect ratios offered by the generator form. */
  datatype Orientation = Portrait | Landscape | Square

  /** The resolution tiers; their display names are "HD", "2K" and "4K". */
  datatype ImageSize = HD | Res2K | Res4K

  /** The top-level screens that the header can select. */
  datatype View = GeneratorView | LibraryView | PricingView | AdminView

  datatype Role = UserRole | AdminRole

  datatype User = User(id: string, email: string, credits: int, googleId: Option<string>, role: Role)

  /** A generated image; immutable once created. `createdAt` stands for the
      creation time stamp, whose value the model does not interpret. */
  datatype Image = Image(
    id: string,
    userId: string,
    prompt: string,
    orientation: Orientation,
    size: ImageSize,
    imageUrl: string,
    createdAt: nat)

  /** A credit package of the pricing screen. The packages on offer all carry a
      positive number of credits, so `credits` is a `nat`. */
  datatype CreditPackage = CreditPackage(
    id: string,
    name: string,
    credits: nat,
    price: real,
    description: string,
    isPopular: bool)

  /** The literal that the source uses for each size. */
  function SizeName(s: ImageSize): (r: string)
    ensures |r| == 2
  {
    match s
    case HD => "HD"
    case Res2K => "2K"
    case Res4K => "4K"
  }

  lemma SizeNameInjective(s: ImageSize, t: ImageSize)
    ensures SizeName(s) == SizeName(t) <==> s == t
  {
  }
}
