/**
 * Report branding: the brand configuration, its dictionary form and back, and the
 * default brand. The dataclasses do not check the types of what they are given, so
 * each field holds whatever JSON value the dictionary had.
 */
module Branding {
  import opened Wrappers
  import opened Seqs

  /** A JSON value. */
  datatype Json = JNull | JBool(b: bool) | JNum(n: real) | JStr(s: string) | JList(items: seq<Json>) | JObject(fields: map<string, Json>)

  datatype BrandColors = BrandColors(primary: Json, secondary: Json, accent: Json, textPrimary: Json,
                                     textSecondary: Json, success: Json, warning: Json, danger: Json)

  datatype BrandContact = BrandContact(email: Json, phone: Json, website: Json, address: Json)

  datatype BrandingConfig = BrandingConfig(brandId: Json, companyName: Json, logoPath: Json, colors: BrandColors,
                                           contact: BrandContact, tagline: Json, footerText: Json,
                                           disclaimers: Json, customSections: Json)

  /** `BrandColors()`: the palette's defaults. */
  const DefaultColors := BrandColors(JStr("#0F172A"), JStr("#1E293B"), JStr("#3B82F6"), JStr("#F8FAFC"),
                                     JStr("#94A3B8"), JStr("#22C55E"), JStr("#EAB308"), JStr("#EF4444"))

  /** `BrandContact()`: every contact field empty. */
  const EmptyContact := BrandContact(JStr(""), JStr(""), JStr(""), JStr(""))

  /** `BrandingConfig()`: every field at its default. */
  const DefaultConfig := BrandingConfig(JStr("default"), JStr("Security Assessment"), JNull, DefaultColors,
                                        EmptyContact, JStr(""), JStr(""), JList([]), JObject(map[]))

  /** `d.get(key, default)`. */
  function Get(d: map<string, Json>, key: string, default: Json): Json {
    if key in d then d[key] else default
  }

  /** `data.get(key, {})` as an object to call `.get` on; anything but an object raises. */
  function Section(data: map<string, Json>, key: string): Option<map<string, Json>> {
    if key !in data then Some(map[])
    else if data[key].JObject? then Some(data[key].fields)
    else None
  }

  function ColorsFrom(d: map<string, Json>): BrandColors {
    BrandColors(Get(d, "primary", DefaultColors.primary), Get(d, "secondary", DefaultColors.secondary),
                Get(d, "accent", DefaultColors.accent), Get(d, "text_primary", DefaultColors.textPrimary),
                Get(d, "text_secondary", DefaultColors.textSecondary), Get(d, "success", DefaultColors.success),
                Get(d, "warning", DefaultColors.warning), Get(d, "danger", DefaultColors.danger))
  }

  function ContactFrom(d: map<string, Json>): BrandContact {
    BrandContact(Get(d, "email", JStr("")), Get(d, "phone", JStr("")), Get(d, "website", JStr("")), Get(d, "address", JStr("")))
  }

  /** `BrandingConfig.from_dict`: fails when `colors` or `contact` is there but is not an object. */
  function FromDict(data: map<string, Json>): Result<BrandingConfig> {
    match (Section(data, "colors"), Section(data, "contact"))
      case (Some(colors), Some(contact)) =>
        Ok(BrandingConfig(Get(data, "brand_id", JStr("default")), Get(data, "company_name", JStr("Security Assessment")),
                          Get(data, "logo_path", JNull), ColorsFrom(colors), ContactFrom(contact),
                          Get(data, "tagline", JStr("")), Get(data, "footer_text", JStr("")),
                          Get(data, "disclaimers", JList([])), Get(data, "custom_sections", JObject(map[]))))
      case _ => Failure("'get' called on a value that is not a dictionary")
  }

  function ColorsDict(c: BrandColors): map<string, Json> {
    map["primary" := c.primary, "secondary" := c.secondary, "accent" := c.accent, "text_primary" := c.textPrimary,
        "text_secondary" := c.textSecondary, "success" := c.success, "warning" := c.warning, "danger" := c.danger]
  }

  function ContactDict(c: BrandContact): map<string, Json> {
    map["email" := c.email, "phone" := c.phone, "website" := c.website, "address" := c.address]
  }

  /** `BrandingConfig.to_dict`. */
  function ToDict(c: BrandingConfig): map<string, Json> {
    map["brand_id" := c.brandId, "company_name" := c.companyName, "logo_path" := c.logoPath,
        "colors" := JObject(ColorsDict(c.colors)), "contact" := JObject(ContactDict(c.contact)),
        "tagline" := c.tagline, "footer_text" := c.footerText, "disclaimers" := c.disclaimers,
        "custom_sections" := c.customSections]
  }

  /** Reading back a configuration's dictionary gives the configuration. */
  lemma RoundTrip(c: BrandingConfig)
    ensures FromDict(ToDict(c)) == Ok(c)
  {
    var d := ToDict(c);
    ToDictLookups(c);
    ColorsRoundTrip(c.colors);
    ContactRoundTrip(c.contact);
    hide ToDict, FromDict, ColorsFrom, ColorsDict, ContactFrom, ContactDict;
    assert Section(d, "colors") == Some(ColorsDict(c.colors));
    assert Section(d, "contact") == Some(ContactDict(c.contact));
    assert Get(d, "brand_id", JStr("default")) == c.brandId;
    assert Get(d, "company_name", JStr("Security Assessment")) == c.companyName;
    assert Get(d, "logo_path", JNull) == c.logoPath;
    assert Get(d, "tagline", JStr("")) == c.tagline;
    assert Get(d, "footer_text", JStr("")) == c.footerText;
    assert Get(d, "disclaimers", JList([])) == c.disclaimers;
    assert Get(d, "custom_sections", JObject(map[])) == c.customSections;
    FromDictUnfold(d);
  }

  lemma FromDictUnfold(data: map<string, Json>)
    requires Section(data, "colors").Some? && Section(data, "contact").Some?
    ensures FromDict(data) ==
      Ok(BrandingConfig(Get(data, "brand_id", JStr("default")), Get(data, "company_name", JStr("Security Assessment")),
                        Get(data, "logo_path", JNull), ColorsFrom(Section(data, "colors").value),
                        ContactFrom(Section(data, "contact").value),
                        Get(data, "tagline", JStr("")), Get(data, "footer_text", JStr("")),
                        Get(data, "disclaimers", JList([])), Get(data, "custom_sections", JObject(map[]))))
  {
  }

  /** Every key of the dictionary holds its field. */
  lemma ToDictLookups(c: BrandingConfig)
    ensures var d := ToDict(c);
      "brand_id" in d && d["brand_id"] == c.brandId && "company_name" in d && d["company_name"] == c.companyName &&
      "logo_path" in d && d["logo_path"] == c.logoPath && "colors" in d && d["colors"] == JObject(ColorsDict(c.colors)) &&
      "contact" in d && d["contact"] == JObject(ContactDict(c.contact)) && "tagline" in d && d["tagline"] == c.tagline &&
      "footer_text" in d && d["footer_text"] == c.footerText && "disclaimers" in d && d["disclaimers"] == c.disclaimers &&
      "custom_sections" in d && d["custom_sections"] == c.customSections
  {
  }

  lemma ColorsRoundTrip(c: BrandColors)
    ensures ColorsFrom(ColorsDict(c)) == c
  {
  }

  lemma ContactRoundTrip(c: BrandContact)
    ensures ContactFrom(ContactDict(c)) == c
  {
  }

  const TopKeys: seq<string> := ["brand_id", "company_name", "logo_path", "colors", "contact", "tagline",
                                 "footer_text", "disclaimers", "custom_sections"]
  const ColorKeys: seq<string> := ["primary", "secondary", "accent", "text_primary", "text_secondary", "success", "warning", "danger"]
  const ContactKeys: seq<string> := ["email", "phone", "website", "address"]

  lemma KeyListsDistinct()
    ensures Distinct(TopKeys) && Distinct(ColorKeys) && Distinct(ContactKeys)
  {
  }

  /** The dictionary has nine keys, its colours eight and its contact four. */
  lemma ToDictShape(c: BrandingConfig)
    ensures ToDict(c).Keys == (set k | k in TopKeys) && |ToDict(c).Keys| == 9
    ensures ToDict(c)["colors"] == JObject(ColorsDict(c.colors))
    ensures ToDict(c)["contact"] == JObject(ContactDict(c.contact))
    ensures ColorsDict(c.colors).Keys == (set k | k in ColorKeys) && |ColorsDict(c.colors).Keys| == 8
    ensures ContactDict(c.contact).Keys == (set k | k in ContactKeys) && |ContactDict(c.contact).Keys| == 4
  {
    TopKeysShape(c);
    SectionShape(c);
  }

  lemma TopKeysShape(c: BrandingConfig)
    ensures ToDict(c).Keys == (set k | k in TopKeys) && |ToDict(c).Keys| == 9
    ensures ToDict(c)["colors"] == JObject(ColorsDict(c.colors))
    ensures ToDict(c)["contact"] == JObject(ContactDict(c.contact))
  {
    KeyListsDistinct();
    DistinctCard(TopKeys);
  }

  lemma SectionShape(c: BrandingConfig)
    ensures ColorsDict(c.colors).Keys == (set k | k in ColorKeys) && |ColorsDict(c.colors).Keys| == 8
    ensures ContactDict(c.contact).Keys == (set k | k in ContactKeys) && |ContactDict(c.contact).Keys| == 4
  {
    KeyListsDistinct();
    DistinctCard(ColorKeys);
    DistinctCard(ContactKeys);
  }

  /**
   * Reading a dictionary fails exactly when `colors` or `contact` is not an object; on
   * success a key that is missing (at the top, in the colours or in the contact) takes
   * its default and a key that is there is taken as it is.
   */
  lemma FromDictDefaults(data: map<string, Json>)
    ensures FromDict(data).Failure? <==>
      ("colors" in data && !data["colors"].JObject?) || ("contact" in data && !data["contact"].JObject?)
    ensures FromDict(data).Ok? ==> var c := FromDict(data).value;
      c.brandId == Get(data, "brand_id", DefaultConfig.brandId) &&
      c.companyName == Get(data, "company_name", DefaultConfig.companyName) &&
      c.logoPath == Get(data, "logo_path", JNull) &&
      c.tagline == Get(data, "tagline", JStr("")) && c.footerText == Get(data, "footer_text", JStr("")) &&
      c.disclaimers == Get(data, "disclaimers", JList([])) && c.customSections == Get(data, "custom_sections", JObject(map[])) &&
      ("colors" !in data ==> c.colors == DefaultColors) && ("contact" !in data ==> c.contact == EmptyContact) &&
      ("colors" in data ==> var cs := data["colors"].fields;
        forall k :: k in ColorKeys ==> ColorsDict(c.colors)[k] == Get(cs, k, ColorsDict(DefaultColors)[k])) &&
      ("contact" in data ==> var ct := data["contact"].fields;
        forall k :: k in ContactKeys ==> ContactDict(c.contact)[k] == Get(ct, k, JStr("")))
    ensures FromDict(map[]) == Ok(DefaultConfig)
  {
    FromDictFails(data);
    FromDictTopFields(data);
    FromDictSections(data);
    hide *;
  }

  lemma FromDictFails(data: map<string, Json>)
    ensures FromDict(data).Failure? <==>
      ("colors" in data && !data["colors"].JObject?) || ("contact" in data && !data["contact"].JObject?)
  {
  }

  lemma FromDictTopFields(data: map<string, Json>)
    ensures FromDict(data).Ok? ==> var c := FromDict(data).value;
      c.brandId == Get(data, "brand_id", DefaultConfig.brandId) &&
      c.companyName == Get(data, "company_name", DefaultConfig.companyName) &&
      c.logoPath == Get(data, "logo_path", JNull) &&
      c.tagline == Get(data, "tagline", JStr("")) && c.footerText == Get(data, "footer_text", JStr("")) &&
      c.disclaimers == Get(data, "disclaimers", JList([])) && c.customSections == Get(data, "custom_sections", JObject(map[]))
    ensures FromDict(map[]) == Ok(DefaultConfig)
  {
  }

  lemma FromDictSections(data: map<string, Json>)
    ensures FromDict(data).Ok? ==> var c := FromDict(data).value;
      ("colors" !in data ==> c.colors == DefaultColors) && ("contact" !in data ==> c.contact == EmptyContact) &&
      ("colors" in data ==> var cs := data["colors"].fields;
        forall k :: k in ColorKeys ==> ColorsDict(c.colors)[k] == Get(cs, k, ColorsDict(DefaultColors)[k])) &&
      ("contact" in data ==> var ct := data["contact"].fields;
        forall k :: k in ContactKeys ==> ContactDict(c.contact)[k] == Get(ct, k, JStr("")))
  {
    assert ColorsFrom(map[]) == DefaultColors && ContactFrom(map[]) == EmptyContact;
    if "colors" in data && data["colors"].JObject? {
      ColorsFromDefaults(data["colors"].fields);
    }
    if "contact" in data && data["contact"].JObject? {
      ContactFromDefaults(data["contact"].fields);
    }
  }

  /** Each colour is the section's value for its key, or that key's default. */
  lemma ColorsFromDefaults(cs: map<string, Json>)
    ensures forall k :: k in ColorKeys ==> ColorsDict(ColorsFrom(cs))[k] == Get(cs, k, ColorsDict(DefaultColors)[k])
  {
  }

  /** Each contact field is the section's value for its key, or empty. */
  lemma ContactFromDefaults(ct: map<string, Json>)
    ensures forall k :: k in ContactKeys ==> ContactDict(ContactFrom(ct))[k] == Get(ct, k, JStr(""))
  {
  }

  /** Writing out what was read gives back every top-level key the dictionary had, other than the two sections. */
  lemma FromDictToDict(data: map<string, Json>, key: string)
    requires FromDict(data).Ok? && key in data
    requires key in {"brand_id", "company_name", "logo_path", "tagline", "footer_text", "disclaimers", "custom_sections"}
    ensures ToDict(FromDict(data).value)[key] == data[key]
  {
  }

  function FirstDisclaimer(): Json { JStr("This assessment represents a point-in-time snapshot of your security posture.") }
  function SecondDisclaimer(): Json { JStr("Recommendations should be validated and tested before implementation.") }
  function ThirdDisclaimer(): Json { JStr("This report is confidential and intended only for the recipient organization.") }

  /** `get_default_brand`. */
  function DefaultBrand(): BrandingConfig {
    BrandingConfig(JStr("default"), JStr("Security Assessment"), JNull, DefaultColors, EmptyContact,
                   JStr("Protecting Your Digital Assets"), JStr("© 2026 Security Assessment. All rights reserved."),
                   JList(DefaultDisclaimers()), JObject(map[]))
  }

  function DefaultDisclaimers(): seq<Json> {
    [FirstDisclaimer(), SecondDisclaimer(), ThirdDisclaimer()]
  }

  /**
   * The default brand is the default configuration with a tagline, a footer and exactly
   * three disclaimers: brand id "default", the default palette and an empty contact.
   */
  lemma DefaultBrandFacts()
    ensures var c := DefaultBrand();
      c.brandId == JStr("default") && c.companyName == JStr("Security Assessment") &&
      c.disclaimers == JList(DefaultDisclaimers()) && |DefaultDisclaimers()| == 3 &&
      c.colors == DefaultColors && c.contact == EmptyContact && c.logoPath == JNull &&
      c.customSections == DefaultConfig.customSections
  {
    hide FirstDisclaimer, SecondDisclaimer, ThirdDisclaimer;
  }
}
