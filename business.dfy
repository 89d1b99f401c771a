/** The business-profile handlers: the two lookups by Firebase uid and the
    partial update of the caller's own profile. */
module BusinessController {
  import opened Common
  import opened Text
  import opened BusinessModel

  /** `getMyBusiness` */
  function GetMyBusiness(caller: Option<string>, businesses: map<string, Business>): (r: Result<Business>)
    ensures !SignedIn(caller) ==> r == Err(Unauthenticated)
    ensures r.Ok? <==> SignedIn(caller) && caller.value in businesses
    ensures SignedIn(caller) && caller.value !in businesses ==> r == Err(NotFound)
    ensures r.Ok? && KeyedByUid(businesses) ==> r.value.firebaseUid == caller.value && r.value in businesses.Values
  {
    if !SignedIn(caller) then Err(Unauthenticated)
    else if caller.value !in businesses then Err(NotFound)
    else Ok(businesses[caller.value])
  }

  /** `getBusinessByUid`: the `uid` query is trimmed first. */
  function GetBusinessByUid(query: Option<string>, businesses: map<string, Business>): (r: Result<Business>)
    ensures query.None? || Blank(query.value) ==> r == Err(BadRequest)
    ensures r.Ok? <==> query.Some? && !Blank(query.value) && Trim(query.value) in businesses
    ensures query.Some? && !Blank(query.value) && Trim(query.value) !in businesses ==> r == Err(NotFound)
    ensures r.Ok? && KeyedByUid(businesses) ==> r.value.firebaseUid == Trim(query.value)
  {
    var uid := if query.Some? then Trim(query.value) else "";
    if uid == "" then Err(BadRequest)
    else if uid !in businesses then Err(NotFound)
    else Ok(businesses[uid])
  }

  /** One entry of the `products` array. `title`, `description` and
      `imageUri` are present only when they are strings; `id` is the text
      of a truthy id and absent otherwise. */
  datatype ProductInput = ProductInput(
    id: Option<string>,
    title: Option<string>,
    description: Option<string>,
    imageUri: Option<string>)

  /** A string field that is not blank, trimmed; absent otherwise. */
  function NonBlankTrimmed(f: Option<string>): (r: Option<string>)
    ensures r.Some? <==> f.Some? && !Blank(f.value)
    ensures r.Some? ==> r.value == Trim(f.value) && r.value != "" && Tight(r.value)
  {
    if f.Some? && !Blank(f.value) then Some(Trim(f.value)) else None
  }

  /** The `map` step of the products normalisation: an item without a
      non-blank string title becomes null. */
  function NormalizeProduct(p: ProductInput): (r: Option<Product>)
    ensures r.Some? <==> p.title.Some? && !Blank(p.title.value)
    ensures r.Some? ==> ProductNormal(r.value) && r.value.title == Trim(p.title.value)
    ensures r.Some? ==> (r.value.id.Some? <==> Truthy(p.id))
    ensures r.Some? ==> (r.value.description.Some? <==> p.description.Some? && !Blank(p.description.value))
    ensures r.Some? ==> (r.value.imageUri.Some? <==> p.imageUri.Some? && !Blank(p.imageUri.value))
    ensures r.Some? && Truthy(p.id) ==> r.value.id == Some(Trim(p.id.value))
    ensures r.Some? && r.value.description.Some? ==> r.value.description.value == Trim(p.description.value)
    ensures r.Some? && r.value.imageUri.Some? ==> r.value.imageUri.value == Trim(p.imageUri.value)
  {
    var title := if p.title.Some? then Trim(p.title.value) else "";
    if title == "" then None
    else Some(Product(
      id := TrimmedIfTruthy(p.id),
      title := title,
      description := NonBlankTrimmed(p.description),
      imageUri := NonBlankTrimmed(p.imageUri)))
  }

  /** `products.map(...).filter(Boolean)` */
  function NormalizeProducts(ps: seq<ProductInput>): (r: seq<Product>)
    ensures |r| <= |ps|
    ensures forall i | 0 <= i < |r| :: ProductNormal(r[i])
  {
    if ps == [] then []
    else
      var rest := NormalizeProducts(ps[1..]);
      match NormalizeProduct(ps[0])
      case None => rest
      case Some(p) => [p] + rest
  }

  /** The normalisation works item by item and keeps the order of the items
      it keeps. */
  lemma {:induction false} NormalizeProductsAppend(a: seq<ProductInput>, b: seq<ProductInput>)
    ensures NormalizeProducts(a + b) == NormalizeProducts(a) + NormalizeProducts(b)
    decreases |a|
  {
    if a == [] {
      assert a + b == b;
    } else {
      assert (a + b)[0] == a[0] && (a + b)[1..] == a[1..] + b;
      NormalizeProductsAppend(a[1..], b);
    }
  }

  /** One item on its own is kept, normalised, exactly when its title is a
      non-blank string. */
  lemma NormalizeOne(p: ProductInput)
    ensures NormalizeProducts([p]) == if NormalizeProduct(p).Some? then [NormalizeProduct(p).value] else []
  {
    assert [p][1..] == [];
  }

  /** A stored product read back as an input item. */
  function AsInput(p: Product): ProductInput {
    ProductInput(p.id, Some(p.title), p.description, p.imageUri)
  }

  /** A stored optional field that is not "" passes the normalisation
      unchanged. */
  lemma NonBlankTrimmedStored(f: Option<string>)
    requires TightOpt(f) && f != Some("")
    ensures NonBlankTrimmed(f) == f
  {
    if f.Some? { TrimTight(f.value); }
  }

  lemma TrimmedIfTruthyStored(f: Option<string>)
    requires TightOpt(f) && f != Some("")
    ensures TrimmedIfTruthy(f) == f
  {
    if f.Some? { TrimTight(f.value); }
  }

  /** A stored product with non-empty optional fields normalises to itself.
      (An id of white space only is stored as "", which is falsy and so
      dropped by a second pass.) */
  lemma NormalizeStoredProduct(p: Product)
    requires ProductNormal(p) && p.id != Some("")
    requires p.description != Some("") && p.imageUri != Some("")
    ensures NormalizeProduct(AsInput(p)) == Some(p)
  {
    TrimTight(p.title);
    TrimmedIfTruthyStored(p.id);
    NonBlankTrimmedStored(p.description);
    NonBlankTrimmedStored(p.imageUri);
  }

  /** The normalisation stores no empty optional field, as long as the id
      sent is not blank. */
  lemma NormalizedHasNoEmpty(x: ProductInput)
    requires x.id.Some? ==> !Blank(x.id.value)
    requires NormalizeProduct(x).Some?
    ensures var p := NormalizeProduct(x).value;
            p.id != Some("") && p.description != Some("") && p.imageUri != Some("")
  {
  }

  /** Stored products read back as input items. */
  function AsInputs(ps: seq<Product>): (r: seq<ProductInput>)
    ensures |r| == |ps| && forall i | 0 <= i < |ps| :: r[i] == AsInput(ps[i])
  {
    seq(|ps|, i requires 0 <= i < |ps| => AsInput(ps[i]))
  }

  /** A stored product on its own passes the normalisation unchanged. */
  lemma StoredOnce(p: Product)
    requires ProductNormal(p) && p.id != Some("")
    requires p.description != Some("") && p.imageUri != Some("")
    ensures NormalizeProducts(AsInputs([p])) == [p]
  {
    assert AsInputs([p]) == [AsInput(p)];
    NormalizeOne(AsInput(p));
    NormalizeStoredProduct(p);
  }

  /** The normalisation of one item passes a second time unchanged. */
  lemma NormalizeOneTwice(x: ProductInput)
    requires x.id.Some? ==> !Blank(x.id.value)
    ensures NormalizeProducts(AsInputs(NormalizeProducts([x]))) == NormalizeProducts([x])
  {
    NormalizeOne(x);
    var once := NormalizeProducts([x]);
    if NormalizeProduct(x).Some? {
      var p := NormalizeProduct(x).value;
      NormalizedHasNoEmpty(x);
      StoredOnce(p);
    } else {
      assert AsInputs(once) == [];
    }
  }

  /** Normalising a normalised product list again changes nothing, as long
      as no id sent is blank. */
  lemma {:induction false} NormalizeProductsIdempotent(ps: seq<ProductInput>)
    requires forall i | 0 <= i < |ps| :: ps[i].id.Some? ==> !Blank(ps[i].id.value)
    ensures NormalizeProducts(AsInputs(NormalizeProducts(ps))) == NormalizeProducts(ps)
  {
    if ps != [] {
      var head, tail := NormalizeProducts([ps[0]]), NormalizeProducts(ps[1..]);
      assert ps == [ps[0]] + ps[1..];
      NormalizeProductsAppend([ps[0]], ps[1..]);
      assert AsInputs(head + tail) == AsInputs(head) + AsInputs(tail);
      NormalizeProductsAppend(AsInputs(head), AsInputs(tail));
      NormalizeOneTwice(ps[0]);
      NormalizeProductsIdempotent(ps[1..]);
    }
  }

  /** The `socials` field: absent, falsy, or an object. */
  datatype SocialsInput = SocialsUndefined | SocialsFalsy | SocialsGiven(socials: Socials)

  /** The body of an update. A text field is the string form of the value
      sent; for `email` a falsy value is given as "". `category` is read
      into the request but never used. */
  datatype UpdateRequest = UpdateRequest(
    name: Option<string>,
    category: Option<string>,
    phone: Option<string>,
    email: Option<string>,
    location: Option<string>,
    description: Option<string>,
    logoUrl: Option<string>,
    coverUrl: Option<string>,
    hours: ListField<Hours>,
    socials: SocialsInput,
    gallery: ListField<string>,
    products: ListField<ProductInput>)

  /** What the update does to the e-mail: a truthy one is written, a falsy
      one is set to `undefined`, a key that Mongoose (version 6 onwards)
      drops from a `$set`. */
  datatype EmailUpdate = SetEmail(email: string) | UnsetEmail

  /** The `$set` document: an entry is present exactly for the fields the
      body does not leave undefined. */
  datatype Update = Update(
    name: Option<string>,
    phone: Option<string>,
    email: Option<EmailUpdate>,
    location: Option<string>,
    description: Option<string>,
    logoUrl: Option<string>,
    coverUrl: Option<string>,
    hours: Option<seq<Hours>>,
    socials: Option<Socials>,
    gallery: Option<seq<string>>,
    products: Option<seq<Product>>)

  const NoSocials: Socials := Socials(None, None, None, None, None, None)

  /** A text field of the body that is not undefined, trimmed. */
  function TrimDefined(f: Option<string>): (r: Option<string>)
    ensures r.Some? <==> f.Some?
    ensures r.Some? ==> r.value == Trim(f.value) && Tight(r.value)
  {
    if f.Some? then Some(Trim(f.value)) else None
  }

  /** An array field of the body: the array itself, or empty when it is not
      an array; absent when undefined. */
  function ListDefined<T>(f: ListField<T>): (r: Option<seq<T>>)
    ensures r.Some? <==> !f.Missing?
    ensures f.NotAList? ==> r == Some([])
    ensures f.List? ==> r == Some(f.items)
  {
    if f.Missing? then None else Some(ItemsOrEmpty(f))
  }

  /** The texts the update writes are trimmed, a written e-mail is in
      normal form and every written product is normal. */
  predicate UpdateNormal(u: Update) {
    && TightOpt(u.name) && TightOpt(u.phone) && TightOpt(u.location)
    && TightOpt(u.description) && TightOpt(u.logoUrl) && TightOpt(u.coverUrl)
    && (u.email.Some? && u.email.value.SetEmail? ==> NormalEmail(u.email.value.email))
    && (u.products.Some? ==> forall i | 0 <= i < |u.products.value| :: ProductNormal(u.products.value[i]))
  }

  /** The fields of the body that are not undefined are exactly the entries
      of the update. */
  predicate Defines(q: UpdateRequest, u: Update) {
    && (u.name.Some? <==> q.name.Some?) && (u.phone.Some? <==> q.phone.Some?)
    && (u.email.Some? <==> q.email.Some?) && (u.location.Some? <==> q.location.Some?)
    && (u.description.Some? <==> q.description.Some?) && (u.logoUrl.Some? <==> q.logoUrl.Some?)
    && (u.coverUrl.Some? <==> q.coverUrl.Some?) && (u.hours.Some? <==> !q.hours.Missing?)
    && (u.socials.Some? <==> !q.socials.SocialsUndefined?) && (u.gallery.Some? <==> !q.gallery.Missing?)
    && (u.products.Some? <==> !q.products.Missing?)
  }

  /** The update the handler builds from the body. `category` has no entry. */
  function UpdateOf(q: UpdateRequest): (u: Update)
    ensures Defines(q, u) && UpdateNormal(u)
    ensures u.email == Some(UnsetEmail) <==> q.email == Some("")
    ensures u.email.Some? && u.email.value.SetEmail? ==> u.email.value.email == ToLower(Trim(q.email.value))
    ensures u.socials == Some(NoSocials) <== q.socials.SocialsFalsy?
  {
    Update(
      name := TrimDefined(q.name),
      phone := TrimDefined(q.phone),
      email := if q.email.None? then None
               else if Truthy(q.email) then Some(SetEmail(EmailIfTruthy(q.email).value))
               else Some(UnsetEmail),
      location := TrimDefined(q.location),
      description := TrimDefined(q.description),
      logoUrl := TrimDefined(q.logoUrl),
      coverUrl := TrimDefined(q.coverUrl),
      hours := ListDefined(q.hours),
      socials := if q.socials.SocialsUndefined? then None
                 else Some(if q.socials.SocialsGiven? then q.socials.socials else NoSocials),
      gallery := ListDefined(q.gallery),
      products := if q.products.Missing? then None else Some(NormalizeProducts(ItemsOrEmpty(q.products))))
  }

  /** The handler fills the update one conditional assignment at a time;
      the assignments are split in two groups here. */
  method BuildUpdate(q: UpdateRequest) returns (u: Update)
    ensures u == UpdateOf(q)
  {
    u := SetTextEntries(q);
    u := SetEmailEntry(q, u);
    u := SetListEntries(q, u);
  }

  /** The plain text fields. */
  method SetTextEntries(q: UpdateRequest) returns (u: Update)
    ensures u.name == UpdateOf(q).name
    ensures u.phone == UpdateOf(q).phone
    ensures u.location == UpdateOf(q).location
    ensures u.description == UpdateOf(q).description
    ensures u.logoUrl == UpdateOf(q).logoUrl
    ensures u.coverUrl == UpdateOf(q).coverUrl
  {
    u := Update(None, None, None, None, None, None, None, None, None, None, None);
    if q.name.Some? { u := u.(name := Some(Trim(q.name.value))); }
    if q.phone.Some? { u := u.(phone := Some(Trim(q.phone.value))); }
    if q.location.Some? { u := u.(location := Some(Trim(q.location.value))); }
    if q.description.Some? { u := u.(description := Some(Trim(q.description.value))); }
    if q.logoUrl.Some? { u := u.(logoUrl := Some(Trim(q.logoUrl.value))); }
    if q.coverUrl.Some? { u := u.(coverUrl := Some(Trim(q.coverUrl.value))); }
  }

  /** The e-mail: lower case and trimmed when truthy, cleared when falsy. */
  method SetEmailEntry(q: UpdateRequest, u0: Update) returns (u: Update)
    ensures u == u0.(email := UpdateOf(q).email)
  {
    u := u0.(email := None);
    if q.email.Some? {
      u := u.(email := Some(if q.email.value != "" then SetEmail(ToLower(Trim(q.email.value))) else UnsetEmail));
    }
  }

  /** The array and object fields. */
  method SetListEntries(q: UpdateRequest, u0: Update) returns (u: Update)
    ensures u.(hours := u0.hours, socials := u0.socials, gallery := u0.gallery, products := u0.products) == u0
    ensures u.hours == UpdateOf(q).hours && u.socials == UpdateOf(q).socials
    ensures u.gallery == UpdateOf(q).gallery && u.products == UpdateOf(q).products
  {
    u := u0.(hours := None, socials := None, gallery := None, products := None);
    if !q.hours.Missing? { u := u.(hours := Some(if q.hours.List? then q.hours.items else [])); }
    if !q.socials.SocialsUndefined? {
      u := u.(socials := Some(if q.socials.SocialsGiven? then q.socials.socials else NoSocials));
    }
    if !q.gallery.Missing? { u := u.(gallery := Some(if q.gallery.List? then q.gallery.items else [])); }
    if !q.products.Missing? {
      var items := if q.products.List? then q.products.items else [];
      u := u.(products := Some(NormalizeProducts(items)));
    }
  }

  function TrimOpt(s: Option<string>): (r: Option<string>)
    ensures r.Some? <==> s.Some?
    ensures TightOpt(r)
  {
    if s.Some? then Some(Trim(s.value)) else None
  }

  /** The `trim` setters of the socials sub-document. */
  function TrimSocials(s: Socials): (r: Socials)
    ensures SocialsNormal(r)
  {
    Socials(TrimOpt(s.website), TrimOpt(s.whatsapp), TrimOpt(s.facebook),
            TrimOpt(s.instagram), TrimOpt(s.youtube), TrimOpt(s.linkedin))
  }

  /** The `trim` setter of the gallery entries. */
  function TrimAll(g: seq<string>): (r: seq<string>)
    ensures |r| == |g| && forall i | 0 <= i < |r| :: r[i] == Trim(g[i]) && Tight(r[i])
  {
    seq(|g|, i requires 0 <= i < |g| => Trim(g[i]))
  }

  function Or<T>(entry: Option<T>, current: T): T {
    if entry.Some? then entry.value else current
  }

  /** An optional text after the update: the entry when there is one, the
      stored value otherwise. */
  function OrOpt(entry: Option<string>, current: Option<string>): (r: Option<string>)
    ensures TightOpt(entry) && TightOpt(current) ==> TightOpt(r)
  {
    if entry.Some? then entry else current
  }

  /** `$set` of an update on a stored business, through the schema setters.
      An entry set to `undefined` is dropped, so it leaves the stored value. */
  function Apply(b: Business, u: Update): (r: Business)
    ensures r.firebaseUid == b.firebaseUid && r.category == b.category
    ensures (&& u.name.None? && u.phone.None? && u.email.None? && u.location.None? && u.description.None?
             && u.logoUrl.None? && u.coverUrl.None? && u.hours.None? && u.socials.None? && u.gallery.None?
             && u.products.None?) ==> r == b
    ensures u.email == Some(UnsetEmail) ==> r.email == b.email
  {
    b.(name := Or(u.name, b.name),
       phone := OrOpt(u.phone, b.phone),
       email := match u.email
                case None => b.email
                case Some(SetEmail(e)) => Some(e)
                case Some(UnsetEmail) => b.email,
       location := OrOpt(u.location, b.location),
       description := OrOpt(u.description, b.description),
       logoUrl := OrOpt(u.logoUrl, b.logoUrl),
       coverUrl := OrOpt(u.coverUrl, b.coverUrl),
       hours := Or(u.hours, b.hours),
       socials := if u.socials.Some? then TrimSocials(u.socials.value) else b.socials,
       gallery := if u.gallery.Some? then TrimAll(u.gallery.value) else b.gallery,
       products := Or(u.products, b.products))
  }

  /** `updateMyBusiness`: only an existing profile is updated (no upsert). */
  function UpdateBusiness(caller: Option<string>, q: UpdateRequest, businesses: map<string, Business>)
    : (r: Result<Business>)
    ensures !SignedIn(caller) ==> r == Err(Unauthenticated)
    ensures r.Ok? <==> SignedIn(caller) && caller.value in businesses
    ensures SignedIn(caller) && caller.value !in businesses ==> r == Err(NotFound)
    ensures r.Ok? ==> r.value.category == businesses[caller.value].category
                      && r.value.firebaseUid == businesses[caller.value].firebaseUid
    ensures r.Ok? ==> r.value == Apply(businesses[caller.value], UpdateOf(q))
  {
    if !SignedIn(caller) then Err(Unauthenticated)
    else if caller.value !in businesses then Err(NotFound)
    else Ok(Apply(businesses[caller.value], UpdateOf(q)))
  }

  /** An update keeps a stored business in the schema's normal form. */
  lemma UpdateKeepsNormal(b: Business, q: UpdateRequest)
    requires Normal(b)
    ensures Normal(Apply(b, UpdateOf(q)))
  {
  }

  /** Every field the body leaves undefined keeps its stored value. */
  lemma UndefinedFieldsKept(b: Business, q: UpdateRequest)
    ensures var b' := Apply(b, UpdateOf(q));
      && (q.name.None? ==> b'.name == b.name) && (q.phone.None? ==> b'.phone == b.phone)
      && (q.email.None? ==> b'.email == b.email) && (q.location.None? ==> b'.location == b.location)
      && (q.description.None? ==> b'.description == b.description)
      && (q.logoUrl.None? ==> b'.logoUrl == b.logoUrl) && (q.coverUrl.None? ==> b'.coverUrl == b.coverUrl)
      && (q.hours.Missing? ==> b'.hours == b.hours) && (q.socials.SocialsUndefined? ==> b'.socials == b.socials)
      && (q.gallery.Missing? ==> b'.gallery == b.gallery) && (q.products.Missing? ==> b'.products == b.products)
  {
  }

  /** A body that defines no field leaves the profile as it was. */
  lemma EmptyUpdateKeepsBusiness(b: Business)
    ensures Apply(b, UpdateOf(UpdateRequest(None, None, None, None, None, None, None, None,
                                            Missing, SocialsUndefined, Missing, Missing))) == b
  {
  }

  /** A falsy e-mail becomes an `undefined` entry, which is dropped, so the
      stored e-mail is kept; a category in the body is ignored. */
  lemma FalsyEmailKept(b: Business, q: UpdateRequest)
    requires q.email == Some("")
    ensures Apply(b, UpdateOf(q)).email == b.email
    ensures Apply(b, UpdateOf(q)).category == b.category
  {
  }

  /** Each text field the body defines is stored trimmed, a truthy e-mail
      trimmed and lower case. */
  lemma DefinedTextsStored(b: Business, q: UpdateRequest)
    ensures var b' := Apply(b, UpdateOf(q));
      && (q.name.Some? ==> b'.name == Trim(q.name.value))
      && (q.phone.Some? ==> b'.phone == Some(Trim(q.phone.value)))
      && (q.location.Some? ==> b'.location == Some(Trim(q.location.value)))
      && (q.description.Some? ==> b'.description == Some(Trim(q.description.value)))
      && (q.logoUrl.Some? ==> b'.logoUrl == Some(Trim(q.logoUrl.value)))
      && (q.coverUrl.Some? ==> b'.coverUrl == Some(Trim(q.coverUrl.value)))
      && (Truthy(q.email) ==> b'.email == Some(ToLower(Trim(q.email.value))))
  {
  }

  /** Each array or object field the body defines replaces the stored one:
      hours and gallery are the array sent or empty, the gallery entries and
      social links trimmed, the products normalised. */
  lemma DefinedListsStored(b: Business, q: UpdateRequest)
    ensures var b' := Apply(b, UpdateOf(q));
      && (!q.hours.Missing? ==> b'.hours == ItemsOrEmpty(q.hours))
      && (!q.gallery.Missing? ==> b'.gallery == TrimAll(ItemsOrEmpty(q.gallery)))
      && (q.socials.SocialsGiven? ==> b'.socials == TrimSocials(q.socials.socials))
      && (q.socials.SocialsFalsy? ==> b'.socials == NoSocials)
      && (!q.products.Missing? ==> b'.products == NormalizeProducts(ItemsOrEmpty(q.products)))
  {
  }

  predicate AllNormal(businesses: map<string, Business>) {
    forall uid | uid in businesses :: Normal(businesses[uid])
  }

  /** The `businesses` collection, keyed by Firebase uid. */
  class BusinessDirectory {
    var businesses: map<string, Business>

    ghost predicate Valid()
      reads this
    {
      KeyedByUid(businesses) && AllNormal(businesses)
    }

    constructor ()
      ensures businesses == map[] && Valid()
    {
      businesses := map[];
    }

    method UpdateMyBusiness(caller: Option<string>, q: UpdateRequest) returns (r: Result<Business>)
      modifies this
      ensures r == UpdateBusiness(caller, q, old(businesses))
      ensures businesses == if r.Ok? then old(businesses)[caller.value := r.value] else old(businesses)
      ensures old(Valid()) ==> Valid()
    {
      if !SignedIn(caller) { return Err(Unauthenticated); }
      var uid := caller.value;
      var update := BuildUpdate(q);
      if uid !in businesses { return Err(NotFound); }
      var business := Apply(businesses[uid], update);
      if Valid() {
        UpdateKeepsNormal(businesses[uid], q);
        var saved := businesses[uid := business];
        forall k | k in saved ensures Normal(saved[k]) && saved[k].firebaseUid == k {
          if k != uid { assert saved[k] == businesses[k]; }
        }
      }
      businesses := businesses[uid := business];
      r := Ok(business);
    }
  }
}
