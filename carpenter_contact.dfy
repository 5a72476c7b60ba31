/** `getContactInfo` of the carpenter template's contact section: the four
    labelled entries shown beside the enquiry form. */
module CarpenterContact {
  import opened Wrappers

  /** The contact part of a site's configuration as the template receives it:
      each value may be `undefined`, `null` or a string. */
  datatype ContactConfig = ContactConfig(
    address: Field<string>,
    city: Field<string>,
    phone: Field<string>,
    email: Field<string>,
    workingHours: Field<string>)

  /** Only `site.contact` is read; `None` is a missing or null contact. */
  datatype SiteConfig = SiteConfig(contact: Option<ContactConfig>)

  datatype Icon = PhoneIcon | MailIcon | MapPinIcon | ClockIcon

  /** One entry: its icon, its `label` (a reserved word here, so `caption`) and its value. */
  datatype ContactEntry = ContactEntry(icon: Icon, caption: string, value: string)

  /** `v || ""` on a string-or-nullish value: `undefined`, `null` and `""`
      are falsy and give `""`. */
  function OrEmpty(v: Field<string>): string
  {
    if v.Present? && v.value != "" then v.value else ""
  }

  /** `${v}` in a template literal. Only the empty string interpolates to
      nothing: `undefined` and `null` show up as words. */
  function Interpolate(v: Field<string>): (s: string)
    ensures s == "" <==> v == Present("")
  {
    match v
    case Absent => "undefined"
    case Null => "null"
    case Present(text) => text
  }

  // `site.contact?.<key>`: `undefined` when there is no contact.
  function PhoneOf(site: SiteConfig): Field<string>
  {
    if site.contact.Some? then site.contact.value.phone else Absent
  }

  function EmailOf(site: SiteConfig): Field<string>
  {
    if site.contact.Some? then site.contact.value.email else Absent
  }

  function AddressOf(site: SiteConfig): Field<string>
  {
    if site.contact.Some? then site.contact.value.address else Absent
  }

  function CityOf(site: SiteConfig): Field<string>
  {
    if site.contact.Some? then site.contact.value.city else Absent
  }

  function HoursOf(site: SiteConfig): Field<string>
  {
    if site.contact.Some? then site.contact.value.workingHours else Absent
  }

  /** `shown` is what an `|| ""` fallback displays for `f`: the text itself
      when it is a non-empty string, otherwise the empty string. */
  ghost predicate FallsBack(f: Field<string>, shown: string)
  {
    && (shown != "" <==> f.Present? && f.value != "")
    && (shown != "" ==> f == Present(shown))
  }

  function ContactInfo(site: SiteConfig): (r: seq<ContactEntry>)
    ensures |r| == 4
    ensures r[0].caption == "Call Us" && r[0].icon == PhoneIcon
    ensures r[1].caption == "Email Us" && r[1].icon == MailIcon
    ensures r[2].caption == "Visit Us" && r[2].icon == MapPinIcon
    ensures r[3].caption == "Opening Hours" && r[3].icon == ClockIcon
    ensures FallsBack(PhoneOf(site), r[0].value)
    ensures FallsBack(EmailOf(site), r[1].value)
    ensures FallsBack(HoursOf(site), r[3].value)
    // the address line has no fallback: both parts are always interpolated
    ensures r[2].value == Interpolate(AddressOf(site)) + ", " + Interpolate(CityOf(site))
  {
    [
      ContactEntry(PhoneIcon, "Call Us", OrEmpty(PhoneOf(site))),
      ContactEntry(MailIcon, "Email Us", OrEmpty(EmailOf(site))),
      ContactEntry(MapPinIcon, "Visit Us",
                   Interpolate(AddressOf(site)) + ", " + Interpolate(CityOf(site))),
      ContactEntry(ClockIcon, "Opening Hours", OrEmpty(HoursOf(site)))
    ]
  }

  /** The address line is never empty: without a contact it reads
      "undefined, undefined", and a null city shows as "null". */
  lemma AddressNeverFallsBack(site: SiteConfig)
    ensures ContactInfo(site)[2].value != ""
    ensures site.contact.None? ==> ContactInfo(site)[2].value == "undefined, undefined"
    ensures site.contact.Some? && site.contact.value.address.Present? && site.contact.value.city.Null?
            ==> ContactInfo(site)[2].value == site.contact.value.address.value + ", null"
  {
    var v := ContactInfo(site)[2].value;
    var a, c := Interpolate(AddressOf(site)), Interpolate(CityOf(site));
    assert v == a + ", " + c;
    assert v[|a|] == ',';
  }

  /** Without a contact, every entry but the address is empty. */
  lemma NoContactShowsBlanks(site: SiteConfig)
    requires site.contact.None?
    ensures ContactInfo(site)[0].value == "" && ContactInfo(site)[1].value == ""
    ensures ContactInfo(site)[3].value == ""
  {
  }
}
