/**
 * `relatic.partner.service`: the contact of a webhook's `member` object is
 * found by e-mail (`=ilike`) and merged, or created, and tagged
 * RELATIC_MIEMBRO.
 */
module PartnerService {
  import opened Wrappers
  import opened Text
  import opened Json
  import opened Records
  import opened Store

  // --------------------------------------------------------------- phone

  /** The characters `re.sub(r'[^\d+]', '', ...)` keeps (ASCII digits). */
  predicate IsDialChar(c: char) { IsAsciiDigit(c) || c == '+' }

  /** The digits and '+' signs of `s`, in order. */
  function Dialable(s: string): (r: string)
    ensures |r| <= |s|
    ensures forall k :: 0 <= k < |r| ==> IsDialChar(r[k])
  {
    if s == [] then [] else (if IsDialChar(s[0]) then [s[0]] else []) + Dialable(s[1..])
  }

  /** Filtering distributes over concatenation: the kept characters stay in order. */
  lemma {:induction false} DialableConcat(a: string, b: string)
    ensures Dialable(a + b) == Dialable(a) + Dialable(b)
  {
    if a != [] {
      var head := if IsDialChar(a[0]) then [a[0]] else [];
      assert (a + b)[0] == a[0] && (a + b)[1..] == a[1..] + b;
      assert Dialable(a + b) == head + Dialable(a[1..] + b);
      DialableConcat(a[1..], b);
      assert Dialable(a) == head + Dialable(a[1..]);
    } else {
      assert a + b == b;
    }
  }

  /** A string of digits and '+' is kept whole: every '+' survives, not only a leading one. */
  lemma {:induction false} DialableKeepsAll(s: string)
    requires forall k :: 0 <= k < |s| ==> IsDialChar(s[k])
    ensures Dialable(s) == s
  {
    if s != [] {
      DialableKeepsAll(s[1..]);
    }
  }

  /** A string with no digit and no '+' is dropped entirely. */
  lemma {:induction false} DialableDropsAll(s: string)
    requires forall k :: 0 <= k < |s| ==> !IsDialChar(s[k])
    ensures Dialable(s) == []
  {
    if s != [] {
      DialableDropsAll(s[1..]);
    }
  }

  lemma SpaceIsNotDialable(c: char)
    requires IsSpace(c)
    ensures !IsDialChar(c)
  {
  }

  /** Whitespace is never kept. */
  lemma SpacesAreNotDialable(s: string)
    requires forall k :: 0 <= k < |s| ==> IsSpace(s[k])
    ensures Dialable(s) == []
  {
    forall k | 0 <= k < |s| ensures !IsDialChar(s[k]) {
      SpaceIsNotDialable(s[k]);
    }
    DialableDropsAll(s);
  }

  lemma TrimStartNotDialable(s: string)
    ensures Dialable(TrimStart(s)) == Dialable(s)
  {
    var t := TrimStart(s);
    var n := |s| - |t|;
    assert s == s[..n] + t;
    SpacesAreNotDialable(s[..n]);
    DialableConcat(s[..n], t);
  }

  lemma TrimEndNotDialable(t: string)
    ensures Dialable(TrimEnd(t)) == Dialable(t)
  {
    var u := TrimEnd(t);
    assert t == u + t[|u|..];
    SpacesAreNotDialable(t[|u|..]);
    DialableConcat(u, t[|u|..]);
  }

  /** The `strip()` before the substitution changes nothing: whitespace is dropped anyway. */
  lemma StripRedundantForPhone(s: string)
    ensures Dialable(Strip(s)) == Dialable(s)
  {
    TrimStartNotDialable(s);
    TrimEndNotDialable(TrimStart(s));
  }

  /** `_normalize_phone`: `''` for a falsy value, else the dialable characters; `None` where `.strip()` fails. */
  function NormalizePhone(phone: JValue): (r: Option<string>)
    ensures !Truthy(phone) ==> r == Some("")
    ensures phone.JStr? ==> r == Some(Dialable(phone.s))
    ensures r.None? <==> Truthy(phone) && !phone.JStr?
  {
    StripRedundantForPhone(if phone.JStr? then phone.s else "");
    if !Truthy(phone) then Some("")
    else if phone.JStr? then Some(Dialable(Strip(phone.s)))
    else None
  }

  /** Normalising a normalised phone changes nothing. */
  lemma NormalizePhoneIdempotent(phone: JValue)
    requires NormalizePhone(phone).Some?
    ensures NormalizePhone(JStr(NormalizePhone(phone).value)) == NormalizePhone(phone)
  {
    var once := NormalizePhone(phone).value;
    DialableKeepsAll(once);
  }

  // ----------------------------------------------------------------- vat

  /** `_normalize_vat`: `''` for a falsy value, else `strip().upper()`; `None` where `.strip()` fails. */
  function NormalizeVat(vat: JValue): (r: Option<string>)
    ensures !Truthy(vat) ==> r == Some("")
    ensures vat.JStr? ==> r == Some(Upper(Strip(vat.s)))
    ensures r.None? <==> Truthy(vat) && !vat.JStr?
  {
    if !Truthy(vat) then Some("")
    else if vat.JStr? then Some(Upper(Strip(vat.s)))
    else None
  }

  /** Normalising a normalised VAT changes nothing. */
  lemma NormalizeVatIdempotent(vat: JValue)
    requires NormalizeVat(vat).Some?
    ensures NormalizeVat(JStr(NormalizeVat(vat).value)) == NormalizeVat(vat)
  {
    if vat.JStr? && vat.s != "" {
      var t := Strip(vat.s);
      StripShape(vat.s);
      UpperKeepsTrimmed(t);
      TrimmedStripNoop(Upper(t));
      UpperIdempotent(t);
    }
  }

  // --------------------------------------------------------------- email

  /** `[a-zA-Z0-9._%+-]` */
  predicate LocalChar(c: char) {
    IsAsciiLetter(c) || IsAsciiDigit(c) || c == '.' || c == '_' || c == '%' || c == '+' || c == '-'
  }

  /** `[a-zA-Z0-9.-]` */
  predicate DomainChar(c: char) {
    IsAsciiLetter(c) || IsAsciiDigit(c) || c == '.' || c == '-'
  }

  /**
   * `e` is `local@domain.tld` with the '@' at `at` and the separating dot at
   * `dot`: a non-empty local part, a non-empty domain, a top-level domain of
   * at least two letters.
   */
  predicate MatchesAt(e: string, at: int, dot: int) {
    && 0 < at && at + 1 < dot && dot + 3 <= |e|
    && e[at] == '@' && e[dot] == '.'
    && (forall k :: 0 <= k < at ==> LocalChar(e[k]))
    && (forall k :: at < k < dot ==> DomainChar(e[k]))
    && (forall k :: dot < k < |e| ==> IsAsciiLetter(e[k]))
  }

  /** The pattern `[a-zA-Z0-9._%+-]+@[a-zA-Z0-9.-]+\.[a-zA-Z]{2,}` matching all of `e`. */
  ghost predicate EmailPattern(e: string) {
    exists at, dot :: MatchesAt(e, at, dot)
  }

  /** The first index of `c` in `s`. */
  function IndexOf(s: string, c: char): (r: Option<nat>)
    ensures r.Some? ==> r.value < |s| && s[r.value] == c && forall k :: 0 <= k < r.value ==> s[k] != c
    ensures r.None? ==> forall k :: 0 <= k < |s| ==> s[k] != c
  {
    if s == [] then None
    else if s[0] == c then Some(0)
    else match IndexOf(s[1..], c)
      case None => None
      case Some(i) => Some(i + 1)
  }

  /** The last index of `c` in `s`. */
  function LastIndexOf(s: string, c: char): (r: Option<nat>)
    ensures r.Some? ==> r.value < |s| && s[r.value] == c && forall k :: r.value < k < |s| ==> s[k] != c
    ensures r.None? ==> forall k :: 0 <= k < |s| ==> s[k] != c
  {
    if s == [] then None
    else if s[|s| - 1] == c then Some(|s| - 1)
    else LastIndexOf(s[..|s| - 1], c)
  }

  /** The whole-string match, computed: the '@' must be the first one and the dot the last one. */
  function EmailShape(e: string): (b: bool) {
    var at := IndexOf(e, '@');
    var dot := LastIndexOf(e, '.');
    at.Some? && dot.Some? && MatchesAt(e, at.value, dot.value)
  }

  /** The computed check accepts exactly the strings the pattern matches. */
  lemma EmailShapeIsPattern(e: string)
    ensures EmailShape(e) <==> EmailPattern(e)
  {
    if EmailPattern(e) {
      var at, dot :| MatchesAt(e, at, dot);
      assert IndexOf(e, '@') == Some(at);
      assert LastIndexOf(e, '.') == Some(dot);
    }
  }

  /**
   * `_validate_email`: `re.match` anchors at the start and `$` matches at
   * the end or before a final newline.
   */
  function ValidEmail(e: string): (b: bool)
    ensures b <==> EmailPattern(e) || (e != [] && e[|e| - 1] == '\n' && EmailPattern(e[..|e| - 1]))
  {
    EmailShapeIsPattern(e);
    EmailShapeIsPattern(if e != [] then e[..|e| - 1] else e);
    EmailShape(e) || (e != [] && e[|e| - 1] == '\n' && EmailShape(e[..|e| - 1]))
  }

  /** A valid address has exactly one '@', and it is not at either end. */
  lemma ValidEmailHasOneAt(e: string)
    requires EmailShape(e)
    ensures exists at :: 0 < at < |e| - 1 && e[at] == '@' && forall k :: 0 <= k < |e| && k != at ==> e[k] != '@'
  {
    var at := IndexOf(e, '@').value;
    var dot := LastIndexOf(e, '.').value;
    assert forall k :: at < k < |e| ==> e[k] != '@' by {
      forall k | at < k < |e| ensures e[k] != '@' {
        if k < dot { assert DomainChar(e[k]); } else if k > dot { assert IsAsciiLetter(e[k]); }
      }
    }
  }

  // ------------------------------------------------- `=ilike` and lookup

  /**
   * SQL `LIKE` without escapes: '%' matches any run of characters and '_'
   * any one character.  A valid e-mail cannot contain the escape '\'.
   */
  function LikeMatch(s: string, p: string): bool
    decreases |s| + |p|
  {
    if p == [] then s == []
    else if p[0] == '%' then LikeMatch(s, p[1..]) || (s != [] && LikeMatch(s[1..], p))
    else s != [] && (p[0] == '_' || p[0] == s[0]) && LikeMatch(s[1..], p[1..])
  }

  /** `value =ilike pattern`: the pattern is not wrapped in '%', and both sides are case-folded. */
  predicate Ilike(value: string, pattern: string) {
    LikeMatch(Lower(value), Lower(pattern))
  }

  /** Every string matches itself as a pattern, wildcards included. */
  lemma {:induction false} LikeReflexive(s: string)
    ensures LikeMatch(s, s)
  {
    if s != [] {
      LikeReflexive(s[1..]);
      if s[0] == '%' {
        assert LikeMatch(s[1..], s[1..]);
        assert LikeMatch(s[1..], s);
      }
    }
  }

  /** Without '%' and '_' in the pattern, `LIKE` is equality. */
  lemma {:induction false} LikeWithoutWildcards(s: string, p: string)
    requires forall k :: 0 <= k < |p| ==> p[k] != '%' && p[k] != '_'
    ensures LikeMatch(s, p) <==> s == p
    decreases |s| + |p|
  {
    if p != [] && s != [] {
      LikeWithoutWildcards(s[1..], p[1..]);
      if s[0] == p[0] && s[1..] == p[1..] {
        assert s == [s[0]] + s[1..] && p == [p[0]] + p[1..];
      }
    }
  }

  /** Addresses that differ only in case match each other. */
  lemma IlikeIgnoresCase(value: string, pattern: string)
    requires Lower(value) == Lower(pattern)
    ensures Ilike(value, pattern)
  {
    LikeReflexive(Lower(value));
  }

  /** A '_' in a valid incoming address matches any character of a stored one. */
  lemma UnderscoreMatchesOtherAddress()
    ensures Ilike("a.b@x.co", "a_b@x.co") && "a.b@x.co" != "a_b@x.co"
  {
    var s := "a.b@x.co";
    var p := "a_b@x.co";
    assert Lower(s) == s && Lower(p) == p;
    assert s[2..] == p[2..];
    LikeReflexive(s[2..]);
    assert s[1..][1..] == s[2..] && p[1..][1..] == p[2..];
    assert LikeMatch(s[1..], p[1..]);
    assert LikeMatch(s, p);
  }

  /** `search([('email', '=ilike', email)], limit=1)`. */
  function FindByEmail(partners: map<Id, Partner>, email: string): (r: Option<Id>)
    ensures r.Some? ==> r.value in partners && Ilike(partners[r.value].email, email)
    ensures r.None? <==> forall k :: k in partners ==> !Ilike(partners[k].email, email)
    ensures r.Some? ==> forall k :: k in partners && Ilike(partners[k].email, email) ==> r.value <= k
  {
    First(partners, (p: Partner) => Ilike(p.email, email))
  }

  /** `email.strip().lower()` as the service computes it. */
  function NormalizeEmail(email: string): string {
    Lower(Strip(email))
  }

  /**
   * A partner stored with some address is found again from the same
   * address in any case and with surrounding blanks (the lookup may stop at
   * an earlier partner that the pattern also matches).
   */
  lemma FoundInAnyCase(partners: map<Id, Partner>, id: Id, incoming: string)
    requires id in partners && Lower(partners[id].email) == Lower(Strip(incoming))
    ensures FindByEmail(partners, NormalizeEmail(incoming)).Some?
    ensures FindByEmail(partners, NormalizeEmail(incoming)).value <= id
  {
    LowerIdempotent(Strip(incoming));
    IlikeIgnoresCase(partners[id].email, NormalizeEmail(incoming));
  }

  // ------------------------------------------------------------- country

  /** `search([('code', '=', code)], limit=1)` over countries. */
  function CountryByCode(countries: map<Id, string>, code: string): (r: Option<Id>)
    ensures r.Some? ==> r.value in countries && countries[r.value] == code
    ensures r.None? <==> code !in countries.Values
  {
    First(countries, (c: string) => c == code)
  }

  /**
   * The `country_id` the service writes: none for a falsy code, the country
   * with the upper-cased code, else Panama if it exists; `Err` where
   * `.upper()` fails.  An absent code has already become 'PA'.
   */
  function CountryFor(countries: map<Id, string>, code: JValue): (r: Result<Option<Id>, Fault>)
    ensures !Truthy(code) ==> r == Ok(None)
    ensures r.Err? <==> Truthy(code) && !code.JStr?
    ensures r.Ok? && r.value.Some? ==> r.value.value in countries
    ensures code.JStr? && code.s != "" && Upper(code.s) in countries.Values ==>
      r.Ok? && r.value.Some? && countries[r.value.value] == Upper(code.s)
    ensures code.JStr? && code.s != "" && Upper(code.s) !in countries.Values ==>
      r == Ok(CountryByCode(countries, "PA"))
  {
    if !Truthy(code) then Ok(None)
    else if !code.JStr? then Err(OtherError(NoSuchAttribute))
    else
      var found := CountryByCode(countries, Upper(code.s));
      if found.Some? then Ok(found) else Ok(CountryByCode(countries, "PA"))
  }

  // ------------------------------------------------------------- partner

  /** The `values` dict of `create_or_update_partner`, minus its two constants. */
  datatype PartnerValues = PartnerValues(
    name: string, email: string, phone: string, vat: string, street: string, city: string, country: Option<Id>)

  /** `member.get(key, '').strip()`; `None` where `.get` or `.strip()` fails. */
  function StrippedField(member: JValue, key: string): Option<string> {
    match Get(member, key, JStr(""))
    case None => None
    case Some(v) => StripText(v)
  }

  /** What `member.get(key, '')` gives to a normaliser; `None` where `.get` fails. */
  function GetOrBlank(member: JValue, key: string): Option<JValue> {
    Get(member, key, JStr(""))
  }

  /**
   * Lines 19-60 of `create_or_update_partner`, which only read: the checked
   * e-mail and name, the existing partner if the lookup finds one, and the
   * values to write.  The first check that fails decides the error.
   */
  function Resolve(t: Tables, member: JValue): (r: Result<(Option<Id>, PartnerValues), Fault>)
    ensures r.Ok? ==> var vals := r.value.1;
      && vals.email != "" && ValidEmail(vals.email) && vals.email == Lower(vals.email)
      && vals.name != "" && Trimmed(vals.name)
      && r.value.0 == FindByEmail(t.partners, vals.email)
    ensures r.Ok? ==> member.JObj?
    ensures r.Ok? ==> var vals := r.value.1;
      && member.JObj? && StrippedField(member, "email").Some?
      && vals.email == Lower(StrippedField(member, "email").value)
      && StrippedField(member, "name") == Some(vals.name)
      && NormalizePhone(Field(member.fields, "phone", JStr(""))) == Some(vals.phone)
      && NormalizeVat(Field(member.fields, "vat", JStr(""))) == Some(vals.vat)
      && StrippedField(member, "street") == Some(vals.street)
      && StrippedField(member, "city") == Some(vals.city)
      && CountryFor(t.countries, Field(member.fields, "country_code", JStr("PA"))) == Ok(vals.country)
    ensures r.Ok? <==>
      && member.JObj? && StrippedField(member, "email").Some?
      && Lower(StrippedField(member, "email").value) != "" && ValidEmail(Lower(StrippedField(member, "email").value))
      && StrippedField(member, "name").Some? && StrippedField(member, "name") != Some("")
      && NormalizePhone(Field(member.fields, "phone", JStr(""))).Some?
      && NormalizeVat(Field(member.fields, "vat", JStr(""))).Some?
      && StrippedField(member, "street").Some? && StrippedField(member, "city").Some?
      && CountryFor(t.countries, Field(member.fields, "country_code", JStr("PA"))).Ok?
    ensures StrippedField(member, "email") == Some("") ==> r == Err(ValidationError(EmailRequired))
    ensures (StrippedField(member, "email").Some? && StrippedField(member, "email") != Some("")
      && !ValidEmail(Lower(StrippedField(member, "email").value))) ==>
      r == Err(ValidationError(EmailMalformed(Lower(StrippedField(member, "email").value))))
    ensures (&& StrippedField(member, "email").Some? && Lower(StrippedField(member, "email").value) != ""
             && ValidEmail(Lower(StrippedField(member, "email").value))
             && StrippedField(member, "name") == Some("")) ==>
      r == Err(ValidationError(NameRequired))
  {
    var rawEmail :- StrippedField(member, "email").ToResult(OtherError(NoSuchAttribute));
    var email := Lower(rawEmail);
    if email == "" then Err(ValidationError(EmailRequired))
    else if !ValidEmail(email) then Err(ValidationError(EmailMalformed(email)))
    else
      var found := FindByEmail(t.partners, email);
      var name :- StrippedField(member, "name").ToResult(OtherError(NoSuchAttribute));
      if name == "" then Err(ValidationError(NameRequired))
      else
        var phone :- NormalizePhone(GetOrBlank(member, "phone").value).ToResult(OtherError(NoSuchAttribute));
        var vat :- NormalizeVat(GetOrBlank(member, "vat").value).ToResult(OtherError(NoSuchAttribute));
        var street :- StrippedField(member, "street").ToResult(OtherError(NoSuchAttribute));
        var city :- StrippedField(member, "city").ToResult(OtherError(NoSuchAttribute));
        var country :- CountryFor(t.countries, Field(member.fields, "country_code", JStr("PA")));
        StripShape(rawEmail);
        LowerIdempotent(rawEmail);
        StripShape(Field(member.fields, "name", JStr("")).s);
        Ok((found, PartnerValues(name, email, phone, vat, street, city, country)))
  }

  /**
   * A partner already stored under the incoming address, in any case and
   * with blanks around it, is the one updated, unless an earlier partner
   * matches the address too.
   */
  lemma ResolveFindsStoredPartner(t: Tables, member: JValue, id: Id)
    requires id in t.partners && Resolve(t, member).Ok?
    requires Lower(t.partners[id].email) == Lower(StrippedField(member, "email").value)
    ensures Resolve(t, member).value.0.Some? && Resolve(t, member).value.0.value <= id
  {
    var raw := Field(member.fields, "email", JStr(""));
    assert StrippedField(member, "email") == Some(Strip(raw.s));
    FoundInAnyCase(t.partners, id, raw.s);
  }

  /** The update: only truthy values are written; `is_company` (False) never is, `customer_rank` (1) always is. */
  function Merge(p: Partner, v: PartnerValues, tag: Id): (r: Partner)
    ensures r.name == v.name && r.email == v.email && r.customerRank == 1
    ensures r.phone == (if v.phone != "" then v.phone else p.phone)
    ensures r.vat == (if v.vat != "" then v.vat else p.vat)
    ensures r.street == (if v.street != "" then v.street else p.street)
    ensures r.city == (if v.city != "" then v.city else p.city)
    ensures r.country == (if v.country.Some? then v.country else p.country)
    ensures r.isCompany == p.isCompany && r.receivable == p.receivable
    ensures r.tags == p.tags + {tag}
  {
    Partner(
      v.name, v.email,
      if v.phone != "" then v.phone else p.phone,
      if v.vat != "" then v.vat else p.vat,
      if v.street != "" then v.street else p.street,
      if v.city != "" then v.city else p.city,
      if v.country.Some? then v.country else p.country,
      p.isCompany, 1, p.tags + {tag}, p.receivable)
  }

  /** The create: every value, not a company, customer rank 1, the tag alone, no own receivable. */
  function NewPartner(v: PartnerValues, tag: Id): (r: Partner)
    ensures r.name == v.name && r.email == v.email && r.phone == v.phone && r.vat == v.vat
    ensures r.street == v.street && r.city == v.city && r.country == v.country
    ensures !r.isCompany && r.customerRank == 1 && r.tags == {tag} && r.receivable.None?
  {
    Partner(v.name, v.email, v.phone, v.vat, v.street, v.city, v.country, false, 1, {tag}, None)
  }

  /** A blank incoming value never erases what the partner had, and the tag is there once. */
  lemma {:induction false} MergeKeepsWhatIsBlank(p: Partner, v: PartnerValues, tag: Id)
    requires v.phone == "" && v.vat == "" && v.street == "" && v.city == "" && v.country.None?
    ensures var r := Merge(p, v, tag);
      r.(name := p.name, email := p.email, customerRank := p.customerRank, tags := p.tags) == p
    ensures tag in Merge(p, v, tag).tags && Merge(Merge(p, v, tag), v, tag) == Merge(p, v, tag)
  {
    var r := Merge(p, v, tag);
    assert r.tags + {tag} == r.tags;
  }

  /** The partner after the call: the merged existing one, or a new one. */
  function Upserted(existing: Option<Partner>, v: PartnerValues, tag: Id): Partner {
    if existing.Some? then Merge(existing.value, v, tag) else NewPartner(v, tag)
  }

  /** `search([('name', '=', name)], limit=1)` over partner tags. */
  function TagNamed(tags: map<Id, string>, name: string): (r: Option<Id>)
    ensures r.Some? ==> r.value in tags && tags[r.value] == name
    ensures r.None? <==> name !in tags.Values
  {
    First(tags, (n: string) => n == name)
  }

  /** `_get_or_create_category`: the first tag with the name, else a new one. */
  method GetOrCreateCategory(store: Store, name: string) returns (id: Id)
    requires store.Valid()
    modifies store
    ensures store.Valid() && store.nextId >= old(store.nextId)
    ensures id in store.db.partnerTags && store.db.partnerTags[id] == name
    ensures TagNamed(store.db.partnerTags, name) == Some(id)
    ensures old(TagNamed(store.db.partnerTags, name)).Some? ==>
      id == old(TagNamed(store.db.partnerTags, name)).value && store.db == old(store.db)
    ensures old(TagNamed(store.db.partnerTags, name)).None? ==>
      id !in old(store.db.partnerTags) && store.db == old(store.db).(partnerTags := old(store.db.partnerTags)[id := name])
  {
    var found := TagNamed(store.db.partnerTags, name);
    if found.Some? {
      return found.value;
    }
    id := store.CreatePartnerTag(name);
    assert forall k :: k in store.db.partnerTags && store.db.partnerTags[k] == name ==> k == id;
  }

  /**
   * `create_or_update_partner`: on success the returned partner is the
   * found one merged with the values, or a new one, and it carries the
   * RELATIC_MIEMBRO tag; no other partner and no other table changes.  On
   * failure nothing is written.
   */
  method CreateOrUpdatePartner(store: Store, member: JValue) returns (r: Result<Id, Fault>)
    requires store.Valid()
    modifies store
    ensures store.Valid() && store.nextId >= old(store.nextId)
    ensures r.Err? <==> Resolve(old(store.db), member).Err?
    ensures r.Err? ==> r.error == Resolve(old(store.db), member).error && store.db == old(store.db)
    ensures r.Ok? ==>
      var found := Resolve(old(store.db), member).value.0;
      var vals := Resolve(old(store.db), member).value.1;
      var tag := TagNamed(store.db.partnerTags, "RELATIC_MIEMBRO");
      && tag.Some?
      && (found.Some? ==> r.value == found.value)
      && (found.None? ==> r.value !in old(store.db.partners))
      && store.db.partners == old(store.db.partners)[r.value :=
           Upserted(if found.Some? then Some(old(store.db.partners)[found.value]) else None, vals, tag.value)]
      && store.db.(partners := old(store.db.partners), partnerTags := old(store.db.partnerTags)) == old(store.db)
    ensures r.Ok? && old(TagNamed(store.db.partnerTags, "RELATIC_MIEMBRO")).Some? ==>
      store.db.partnerTags == old(store.db.partnerTags)
    ensures r.Ok? && old(TagNamed(store.db.partnerTags, "RELATIC_MIEMBRO")).None? ==>
      var tag := TagNamed(store.db.partnerTags, "RELATIC_MIEMBRO").value;
      tag !in old(store.db.partnerTags) && store.db.partnerTags == old(store.db.partnerTags)[tag := "RELATIC_MIEMBRO"]
  {
    var resolved := Resolve(store.db, member);
    if resolved.Err? {
      return Err(resolved.error);
    }
    var (found, vals) := resolved.value;
    ghost var before := store.db.partners;
    var tag := GetOrCreateCategory(store, "RELATIC_MIEMBRO");
    assert store.db.partners == before;
    if found.Some? {
      store.WritePartner(found.value, Merge(store.db.partners[found.value], vals, tag));
      r := Ok(found.value);
    } else {
      var id := store.CreatePartner(NewPartner(vals, tag));
      r := Ok(id);
    }
  }
}
