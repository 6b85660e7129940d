/** The contact details dialog, as the requests and navigations its buttons
    produce for the contact it shows (`None` when there is none, in which
    case the dialog renders nothing and every button does nothing). Its
    initials and colour helpers are the ones in ContactsTab. */
module ContactDetails {
  import opened Wrappers
  import opened Schema
  import Storage
  import ContactsTab

  /** The dialog shows something exactly when it has a contact. */
  predicate Renders(c: Option<Contact>) {
    c.Some?
  }

  /** `handleToggleFavorite()`: the id to PUT to and the body
      `{ isFavorite: !contact.isFavorite }`, where an absent flag counts as
      false. */
  function ToggleFavorite(c: Option<Contact>): (r: Option<(string, Body)>)
    ensures r.None? <==> !Renders(c)
    ensures r.Some? ==> r.value.0 == c.value.id
    ensures r.Some? ==>
      ParseContactPatch(r.value.1) == Ok(EmptyPatch.(isFavorite := Some(Some(!ContactsTab.IsFavorite(c.value)))))
  {
    if c.None? then None
    else Some((c.value.id, Fields(map["isFavorite" := Bool(!ContactsTab.IsFavorite(c.value))])))
  }

  /** Applied by the store, the toggle flips whether the contact counts as a
      favourite and changes nothing else. */
  lemma ToggleChangesOnlyFavorite(c: Contact)
    ensures var p := ParseContactPatch(ToggleFavorite(Some(c)).value.1).value;
      && ContactsTab.IsFavorite(Storage.Merge(c, p)) == !ContactsTab.IsFavorite(c)
      && Storage.Merge(c, p) == c.(isFavorite := Some(!ContactsTab.IsFavorite(c)))
  {
  }

  /** Toggling twice restores whether the contact is a favourite (an absent
      flag comes back as an explicit false). */
  lemma ToggleTwice(c: Contact)
    ensures var once := Storage.Merge(c, ParseContactPatch(ToggleFavorite(Some(c)).value.1).value);
      var twice := Storage.Merge(once, ParseContactPatch(ToggleFavorite(Some(once)).value.1).value);
      && ContactsTab.IsFavorite(twice) == ContactsTab.IsFavorite(c)
      && twice == c.(isFavorite := Some(ContactsTab.IsFavorite(c)))
  {
    ToggleChangesOnlyFavorite(c);
    var once := Storage.Merge(c, ParseContactPatch(ToggleFavorite(Some(c)).value.1).value);
    ToggleChangesOnlyFavorite(once);
  }

  /** `handleDelete()`: the id to DELETE. */
  function DeleteTarget(c: Option<Contact>): (r: Option<string>)
    ensures r.None? <==> !Renders(c)
    ensures r.Some? ==> r.value == c.value.id
  {
    if c.None? then None else Some(c.value.id)
  }

  /** `handleCall()` with the scheme "tel:" and `handleMessage()` with
      "sms:": a navigation to the phone number, only when there is a
      contact. */
  function PhoneLink(c: Option<Contact>, scheme: string): (r: Option<string>)
    ensures r.None? <==> !Renders(c)
    ensures r.Some? ==> r.value == scheme + c.value.phone
  {
    if c.None? then None else Some(scheme + c.value.phone)
  }

  /** `handleEmail()`: fires only for a contact with a non-empty email. */
  function EmailTarget(c: Option<Contact>): (r: Option<string>)
    ensures r.Some? <==> Renders(c) && c.value.email.Some? && c.value.email.value != ""
    ensures r.Some? ==> r.value == "mailto:" + c.value.email.value
  {
    if c.Some? && c.value.email.Some? && c.value.email.value != "" then
      Some("mailto:" + c.value.email.value)
    else
      None
  }
}
