/** The contact methods and their queries (src/app/data/contacts.ts). */
module Contacts {
  import opened Wrappers
  import opened Seqs
  import opened Icons

  /** A contact method. `category`, `priority` and `ariaLabel` are optional
      fields of the source type. */
  datatype Contact = Contact(
    id: string, icon: Icon, title: string, value: string, link: string, color: string,
    category: Option<string>, priority: Option<int>, ariaLabel: Option<string>)

  const EmailContact := Contact("email", Mail, "Email", "biyuraaa@gmail.com", "mailto:biyuraaa@gmail.com",
    "from-blue-400 to-cyan-400", Some("direct"), Some(1), Some("Send email to Bimo"))
  const PhoneContact := Contact("phone", Phone, "Phone", "+62 821-4047-7030", "tel:+6282140477030",
    "from-green-400 to-emerald-400", Some("direct"), Some(2), Some("Call Bimo"))
  const WhatsAppContact := Contact("whatsapp", WhatsApp, "WhatsApp", "+62 821-4047-7030", "https://wa.me/6282140477030",
    "from-green-500 to-green-600", Some("direct"), Some(3), Some("Chat on WhatsApp"))
  const TelegramContact := Contact("telegram", Telegram, "Telegram", "@mbimobayub", "https://t.me/6282140477030",
    "from-blue-500 to-blue-600", Some("direct"), Some(4), Some("Message on Telegram"))
  const LinkedinContact := Contact("linkedin", Linkedin, "LinkedIn", "M Bimo Bayu Bagaskara",
    "https://www.linkedin.com/in/m-bimo-bayu-bagaskara-ab313424b/",
    "from-blue-600 to-blue-700", Some("professional"), Some(1), Some("Connect on LinkedIn"))
  const InstagramContact := Contact("instagram", Instagram, "Instagram", "@mbimobayub", "https://instagram.com/mbimobayub",
    "from-pink-500 to-purple-500", Some("social"), Some(1), Some("Follow on Instagram"))
  const LineContact := Contact("line", Line, "LINE", "@biyuraaa", "https://line.me/ti/p/Pk68NSG73u",
    "from-green-400 to-green-500", Some("direct"), Some(5), Some("Chat on LINE"))
  const GithubContact := Contact("github", Github, "GitHub", "Biyuraaa", "https://github.com/Biyuraaa",
    "from-gray-600 to-gray-700", Some("professional"), Some(2), Some("View GitHub profile"))

  /** The contact table, in declaration order. */
  const contacts: seq<Contact> := [EmailContact, PhoneContact, WhatsAppContact, TelegramContact,
    LinkedinContact, InstagramContact, LineContact, GithubContact]

  /** `contact.priority || 99`: a missing priority, and a priority of 0
      (which JavaScript treats as false), both sort as 99. */
  function EffectivePriority(c: Contact): int {
    match c.priority
    case Some(p) => if p != 0 then p else 99
    case None => 99
  }

  /** `(contact) => contact.category === category`; a contact without a
      category never matches. */
  function InContactCategory(category: string): Contact -> bool {
    (c: Contact) => c.category == Some(category)
  }

  /** `.sort((a, b) => (a.priority || 99) - (b.priority || 99))` on a copy. */
  function SortByPriority(cs: seq<Contact>): (r: seq<Contact>)
    ensures multiset(r) == multiset(cs)
    ensures SortedBy(r, EffectivePriority)
    ensures forall k :: KeyClass(r, EffectivePriority, k) == KeyClass(cs, EffectivePriority, k)
  {
    SortBySorted(cs, EffectivePriority);
    SortByStableAll(cs, EffectivePriority);
    SortBy(cs, EffectivePriority)
  }

  /** `getContactsByCategory`: the contacts of one category, by effective
      priority, contacts of equal priority in table order. */
  function GetContactsByCategory(category: string): (r: seq<Contact>)
    ensures forall c :: c in r <==> c in contacts && c.category == Some(category)
    ensures multiset(r) == multiset(Filter(contacts, InContactCategory(category)))
    ensures SortedBy(r, EffectivePriority)
    ensures forall k :: KeyClass(r, EffectivePriority, k) == KeyClass(Filter(contacts, InContactCategory(category)), EffectivePriority, k)
  {
    var kept := Filter(contacts, InContactCategory(category));
    var r := SortByPriority(kept);
    assert forall c :: c in r <==> c in multiset(kept);
    r
  }

  /** `getPrimaryContacts(limit)`: every contact by effective priority, cut
      to `limit` entries when `limit` is truthy. An absent limit and a limit
      of 0 are both falsy and give the whole sorted list, which is what
      taking `|contacts|` entries gives. */
  function GetPrimaryContacts(limit: Option<int>): (r: seq<Contact>)
    ensures limit.None? || limit.value == 0 ==> |r| == |contacts| && multiset(r) == multiset(contacts)
    ensures limit.Some? && limit.value != 0 ==> |r| == SliceEnd(|contacts|, limit.value)
    ensures SortedBy(r, EffectivePriority) && multiset(r) <= multiset(contacts)
    ensures forall x, y :: x in r && y in contacts && y !in r ==> EffectivePriority(x) <= EffectivePriority(y)
    ensures forall k :: IsPrefix(KeyClass(r, EffectivePriority, k), KeyClass(contacts, EffectivePriority, k))
  {
    var n := if limit.Some? && limit.value != 0 then limit.value else |contacts|;
    TopBy(contacts, EffectivePriority, n)
  }
}
