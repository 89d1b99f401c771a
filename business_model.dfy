/** The `businesses` collection: one business profile per Firebase uid, with
    opening hours, social links, a gallery and a product list. */
module BusinessModel {
  import opened Common
  import opened Text

  datatype Hours = Hours(day: string, open: Option<string>, close: Option<string>, closed: bool)

  datatype Socials = Socials(
    website: Option<string>,
    whatsapp: Option<string>,
    facebook: Option<string>,
    instagram: Option<string>,
    youtube: Option<string>,
    linkedin: Option<string>)

  datatype Product = Product(id: Option<string>, title: string, description: Option<string>, imageUri: Option<string>)

  datatype Business = Business(
    firebaseUid: string,
    name: string,
    category: string,
    phone: Option<string>,
    email: Option<string>,
    location: Option<string>,
    logoUrl: Option<string>,
    coverUrl: Option<string>,
    description: Option<string>,
    hours: seq<Hours>,
    socials: Socials,
    gallery: seq<string>,
    products: seq<Product>)

  predicate TightOpt(s: Option<string>) {
    s.Some? ==> Tight(s.value)
  }

  predicate SocialsNormal(s: Socials) {
    && TightOpt(s.website) && TightOpt(s.whatsapp) && TightOpt(s.facebook)
    && TightOpt(s.instagram) && TightOpt(s.youtube) && TightOpt(s.linkedin)
  }

  /** A stored product: a non-empty trimmed title, and trimmed optional
      fields. */
  predicate ProductNormal(p: Product) {
    p.title != "" && Tight(p.title) && TightOpt(p.id) && TightOpt(p.description) && TightOpt(p.imageUri)
  }

  /** What the schema setters leave behind: every `trim` field is trimmed
      and the e-mail is lower case. */
  predicate Normal(b: Business) {
    && Tight(b.name) && Tight(b.category)
    && TightOpt(b.phone) && (b.email.Some? ==> NormalEmail(b.email.value)) && TightOpt(b.location)
    && TightOpt(b.logoUrl) && TightOpt(b.coverUrl) && TightOpt(b.description)
    && SocialsNormal(b.socials)
    && (forall i | 0 <= i < |b.gallery| :: Tight(b.gallery[i]))
    && (forall i | 0 <= i < |b.products| :: ProductNormal(b.products[i]))
  }

  /** The unique index on `firebaseUid`. */
  predicate KeyedByUid(businesses: map<string, Business>) {
    forall uid | uid in businesses :: businesses[uid].firebaseUid == uid
  }
}
