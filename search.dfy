/** `searchMembers`: approved members whose name, business name or business
    category contains the query, case-insensitively, at most `limit` of
    them. The query reaches the database as a regular expression whose
    metacharacters are escaped, so that it is matched as plain text. */
module Search {
  import opened Common
  import opened Text
  import opened UserModel
  import BusinessModel
  import Listing

  const DefaultLimit: nat := 20
  const MaxLimit: nat := 50

  /** The characters of the class `[.*+?^${}()|[\]\\]`. */
  predicate IsMeta(c: char) {
    || c == '.' || c == '*' || c == '+' || c == '?' || c == '^' || c == '$'
    || c == '{' || c == '}' || c == '(' || c == ')' || c == '|' || c == '['
    || c == ']' || c == '\\'
  }

  /** `replace(/[.*+?^${}()|[\]\\]/g, '\\$&')`: a backslash before every
      metacharacter. */
  function Escape(s: string): (r: string)
    ensures |r| >= |s|
  {
    if s == [] then []
    else (if IsMeta(s[0]) then ['\\', s[0]] else [s[0]]) + Escape(s[1..])
  }

  function Cons(c: char, r: Option<string>): Option<string> {
    if r.Some? then Some([c] + r.value) else None
  }

  /** The text a regular-expression source stands for when it is a plain
      literal: ordinary characters and escaped metacharacters only. A bare
      metacharacter, or a backslash before anything else, makes it not a
      literal. */
  function LiteralOf(p: string): (r: Option<string>)
    decreases |p|
  {
    if p == [] then Some([])
    else if p[0] == '\\' then
      (if |p| >= 2 && IsMeta(p[1]) then Cons(p[1], LiteralOf(p[2..])) else None)
    else if IsMeta(p[0]) then None
    else Cons(p[0], LiteralOf(p[1..]))
  }

  /** The escaped query is a literal, and the literal is the query itself. */
  lemma {:induction false} EscapeLiteral(s: string)
    ensures LiteralOf(Escape(s)) == Some(s)
  {
    if s != [] {
      EscapeLiteral(s[1..]);
      var rest := Escape(s[1..]);
      if IsMeta(s[0]) {
        assert Escape(s) == ['\\', s[0]] + rest;
        assert Escape(s)[2..] == rest;
      } else {
        assert Escape(s) == [s[0]] + rest;
        assert Escape(s)[1..] == rest;
      }
      assert [s[0]] + s[1..] == s;
    }
  }

  predicate OccursAt(hay: string, needle: string, i: int) {
    0 <= i && i + |needle| <= |hay| && hay[i..i + |needle|] == needle
  }

  /** `needle` occurs in `text` when both are lower-cased. */
  predicate ContainsCI(text: string, needle: string) {
    exists i | 0 <= i <= |text| :: OccursAt(ToLower(text), ToLower(needle), i)
  }

  /** A case-insensitive regular expression that is a literal matches a
      text when the literal occurs in it. */
  predicate PatternMatches(pattern: string, text: string) {
    LiteralOf(pattern).Some? && ContainsCI(text, LiteralOf(pattern).value)
  }

  /** The regular expression built from the query matches exactly the
      texts that contain the query. */
  lemma EscapedQueryMatches(q: string, text: string)
    ensures PatternMatches(Escape(q), text) <==> ContainsCI(text, q)
  {
    EscapeLiteral(q);
  }

  /** The `$project`ed member. */
  datatype MemberCard = MemberCard(
    name: string,
    profilePic: Option<string>,
    phone: string,
    email: Option<string>,
    groupId: string)

  /** The `$project`ed business; absent when the member has no business
      profile. */
  datatype BusinessCard = BusinessCard(
    name: string,
    category: string,
    logoUrl: Option<string>,
    coverUrl: Option<string>)

  datatype SearchItem = SearchItem(firebaseUid: string, user: MemberCard, business: Option<BusinessCard>)

  datatype SearchResult = SearchResult(items: seq<SearchItem>, count: nat)

  /** The `$lookup` by `firebaseUid` followed by the `$unwind` that keeps
      members without a business: it replaces the member's embedded
      business section. */
  function Joined(u: User, businesses: map<string, BusinessModel.Business>): (r: Option<BusinessModel.Business>)
    ensures r.Some? <==> u.firebaseUid in businesses
    ensures r.Some? && BusinessModel.KeyedByUid(businesses) ==> r.value.firebaseUid == u.firebaseUid
  {
    if u.firebaseUid in businesses then Some(businesses[u.firebaseUid]) else None
  }

  function Project(u: User, businesses: map<string, BusinessModel.Business>): (r: SearchItem)
    ensures r.firebaseUid == u.firebaseUid && r.user.name == u.personal.name && r.user.phone == u.personal.phone
    ensures r.business.Some? <==> u.firebaseUid in businesses
    ensures r.business.Some? ==> r.business.value.name == businesses[u.firebaseUid].name
                                 && r.business.value.category == businesses[u.firebaseUid].category
  {
    var b := Joined(u, businesses);
    SearchItem(
      u.firebaseUid,
      MemberCard(u.personal.name, u.personal.profilePic, u.personal.phone, u.personal.email, u.personal.groupId),
      if b.Some? then Some(BusinessCard(b.value.name, b.value.category, b.value.logoUrl, b.value.coverUrl)) else None)
  }

  /** The second `$match`, on the regular expression. */
  predicate PatternHit(pattern: string, u: User, businesses: map<string, BusinessModel.Business>) {
    var b := Joined(u, businesses);
    || PatternMatches(pattern, u.personal.name)
    || (b.Some? && (PatternMatches(pattern, b.value.name) || PatternMatches(pattern, b.value.category)))
  }

  /** What a search for `q` is meant to find: an approved member whose
      name, business name or business category contains `q`. */
  predicate Finds(q: string, u: User, businesses: map<string, BusinessModel.Business>) {
    var b := Joined(u, businesses);
    && u.status == Approved
    && (|| ContainsCI(u.personal.name, q)
        || (b.Some? && (ContainsCI(b.value.name, q) || ContainsCI(b.value.category, q))))
  }

  /** The escaped pattern hits exactly the members the query should find. */
  lemma PatternHitFinds(q: string, u: User, businesses: map<string, BusinessModel.Business>)
    ensures u.status == Approved && PatternHit(Escape(q), u, businesses) <==> Finds(q, u, businesses)
  {
    EscapeLiteral(q);
  }

  /** The two `$match` stages: an approved member whose name, business name
      or business category the pattern hits. */
  predicate Hit(pattern: string, u: User, businesses: map<string, BusinessModel.Business>) {
    u.status == Approved && PatternHit(pattern, u, businesses)
  }

  /** The pipeline before `$limit`, in collection order: one projected item
      per matching member, so each member appears as often as it is
      stored. */
  function Hits(users: seq<User>, pattern: string, businesses: map<string, BusinessModel.Business>)
    : (r: seq<SearchItem>)
    ensures |r| <= |users|
    ensures var hit := Listing.Select(users, (u: User) => Hit(pattern, u, businesses));
            |r| == |hit| && forall i | 0 <= i < |r| :: r[i] == Project(hit[i], businesses)
    ensures forall it | it in r :: exists u | u in users :: Hit(pattern, u, businesses) && Project(u, businesses) == it
    ensures forall u | u in users && Hit(pattern, u, businesses) :: Project(u, businesses) in r
  {
    var p := (u: User) => Hit(pattern, u, businesses);
    var hit := Listing.Select(users, p);
    var r := seq(|hit|, i requires 0 <= i < |hit| => Project(hit[i], businesses));
    ProjectedHits(users, pattern, businesses, hit, r);
    r
  }

  /** The projections of the selected members are exactly the projections
      of the members that hit. */
  lemma ProjectedHits(users: seq<User>, pattern: string, businesses: map<string, BusinessModel.Business>,
                      hit: seq<User>, r: seq<SearchItem>)
    requires hit == Listing.Select(users, (u: User) => Hit(pattern, u, businesses))
    requires |r| == |hit| && forall i | 0 <= i < |r| :: r[i] == Project(hit[i], businesses)
    ensures forall it | it in r :: exists u | u in users :: Hit(pattern, u, businesses) && Project(u, businesses) == it
    ensures forall u | u in users && Hit(pattern, u, businesses) :: Project(u, businesses) in r
  {
    forall it | it in r ensures exists u | u in users :: Hit(pattern, u, businesses) && Project(u, businesses) == it {
      var i :| 0 <= i < |r| && r[i] == it;
      assert hit[i] in hit;
    }
    forall u | u in users && Hit(pattern, u, businesses) ensures Project(u, businesses) in r {
      assert u in hit;
      var i :| 0 <= i < |hit| && hit[i] == u;
      assert r[i] == Project(u, businesses);
    }
  }

  /** `searchMembers` */
  function SearchMembers(caller: Option<string>, query: Option<string>, limit: Option<int>,
                         users: seq<User>, businesses: map<string, BusinessModel.Business>)
    : (r: Result<SearchResult>)
    ensures !SignedIn(caller) ==> r == Err(Unauthenticated)
    ensures r.Ok? <==> SignedIn(caller)
    ensures r.Ok? ==> r.value.count == |r.value.items| <= ClampLimit(limit, DefaultLimit, MaxLimit)
    ensures r.Ok? && (query.None? || Blank(query.value)) ==> r.value.items == []
    ensures r.Ok? ==> forall it | it in r.value.items ::
              exists u | u in users :: Finds(Trim(query.value), u, businesses) && Project(u, businesses) == it
    ensures r.Ok? && query.Some? && !Blank(query.value) ==>
              var hits := Hits(users, Escape(Trim(query.value)), businesses);
              && |r.value.items| <= |hits| && r.value.items == hits[..|r.value.items|]
              && (|r.value.items| == ClampLimit(limit, DefaultLimit, MaxLimit) || |r.value.items| == |hits|)
    ensures r.Ok? && query.Some? && !Blank(query.value)
            && |r.value.items| < ClampLimit(limit, DefaultLimit, MaxLimit) ==>
              forall u | u in users && Finds(Trim(query.value), u, businesses) :: Project(u, businesses) in r.value.items
  {
    if !SignedIn(caller) then Err(Unauthenticated)
    else
      var raw := if Truthy(query) then Trim(query.value) else "";
      var lim := ClampLimit(limit, DefaultLimit, MaxLimit);
      if raw == "" then Ok(SearchResult([], 0))
      else
        var hits := Hits(users, Escape(raw), businesses);
        var items := if |hits| <= lim then hits else hits[..lim];
        assert items == hits[..|items|];
        FindsAll(raw, users, businesses);
        assert forall it | it in items :: it in hits;
        Ok(SearchResult(items, |items|))
  }

  lemma FindsAll(q: string, users: seq<User>, businesses: map<string, BusinessModel.Business>)
    ensures forall u | u in users :: (u.status == Approved && PatternHit(Escape(q), u, businesses)
                                      <==> Finds(q, u, businesses))
  {
    forall u | u in users
      ensures u.status == Approved && PatternHit(Escape(q), u, businesses) <==> Finds(q, u, businesses)
    {
      PatternHitFinds(q, u, businesses);
    }
  }

  /** Members with distinct uids give distinct items: no member is listed
      twice. */
  lemma HitsUnique(users: seq<User>, pattern: string, businesses: map<string, BusinessModel.Business>)
    requires forall i, j | 0 <= i < j < |users| :: users[i].firebaseUid != users[j].firebaseUid
    ensures var r := Hits(users, pattern, businesses);
            forall i, j | 0 <= i < j < |r| :: r[i].firebaseUid != r[j].firebaseUid
  {
    var p := (u: User) => Hit(pattern, u, businesses);
    var uid := (u: User) => u.firebaseUid;
    var hit := Listing.Select(users, p);
    assert forall i, j | 0 <= i < j < |users| :: uid(users[i]) != uid(users[j]);
    Listing.SelectKeepsDistinct(users, p, uid);
    var r := Hits(users, pattern, businesses);
    forall i, j | 0 <= i < j < |r| ensures r[i].firebaseUid != r[j].firebaseUid {
      assert r[i] == Project(hit[i], businesses) && r[j] == Project(hit[j], businesses);
      assert uid(hit[i]) != uid(hit[j]);
    }
  }
}
