/** The in-memory storage engine: two keyed tables, contacts and call logs,
    behind the operations the HTTP layer calls.

    Identifiers come from a supply that never repeats itself during the
    life of the store (`issued` records what it has handed out), in place of
    `randomUUID`. The clock reading `now` is a parameter of the two create
    operations, in place of `new Date()`. */
module Storage {
  import opened Wrappers
  import opened Schema
  import Text
  import Collections
  import Listing

  /** `{ ...insertContact, id, createdAt }` */
  function NewContact(ins: InsertContact, id: string, now: nat): (r: Contact)
    ensures r.id == id && r.createdAt == now
    ensures r.name == ins.name && r.phone == ins.phone && r.email == ins.email
    ensures r.avatar == ins.avatar && r.isFavorite == ins.isFavorite
  {
    Contact(id, ins.name, ins.phone, ins.email, ins.avatar, ins.isFavorite, now)
  }

  /** `{ ...insertCallLog, id, timestamp }` */
  function NewCallLog(ins: InsertCallLog, id: string, now: nat): (r: CallLog)
    ensures r.id == id && r.timestamp == now
    ensures r.contactId == ins.contactId && r.phoneNumber == ins.phoneNumber
    ensures r.contactName == ins.contactName && r.callType == ins.callType && r.duration == ins.duration
  {
    CallLog(id, ins.contactId, ins.phoneNumber, ins.contactName, ins.callType, ins.duration, now)
  }

  /** `{ ...contact, ...updateData }`: each field the patch supplies replaces
      the stored one. A patch cannot name `id` or `createdAt`. */
  function Merge(c: Contact, p: ContactPatch): (r: Contact)
    ensures r.id == c.id && r.createdAt == c.createdAt
    ensures r.name == (if p.name.Some? then p.name.value else c.name)
    ensures r.phone == (if p.phone.Some? then p.phone.value else c.phone)
    ensures r.email == (if p.email.Some? then p.email.value else c.email)
    ensures r.avatar == (if p.avatar.Some? then p.avatar.value else c.avatar)
    ensures r.isFavorite == (if p.isFavorite.Some? then p.isFavorite.value else c.isFavorite)
  {
    Contact(
      c.id,
      if p.name.Some? then p.name.value else c.name,
      if p.phone.Some? then p.phone.value else c.phone,
      if p.email.Some? then p.email.value else c.email,
      if p.avatar.Some? then p.avatar.value else c.avatar,
      if p.isFavorite.Some? then p.isFavorite.value else c.isFavorite,
      c.createdAt)
  }

  /** Two spreads in a row: the later patch wins where both supply a field. */
  function Then(p: ContactPatch, q: ContactPatch): ContactPatch {
    ContactPatch(
      if q.name.Some? then q.name else p.name,
      if q.phone.Some? then q.phone else p.phone,
      if q.email.Some? then q.email else p.email,
      if q.avatar.Some? then q.avatar else p.avatar,
      if q.isFavorite.Some? then q.isFavorite else p.isFavorite)
  }

  /** A merge keeps the identity and creation time, and changes exactly the
      supplied fields: a field is left alone unless the patch names it. */
  lemma MergeChangesOnlySupplied(c: Contact, p: ContactPatch)
    ensures Merge(c, p).id == c.id && Merge(c, p).createdAt == c.createdAt
    ensures p.name.None? ==> Merge(c, p).name == c.name
    ensures p.phone.None? ==> Merge(c, p).phone == c.phone
    ensures p.email.None? ==> Merge(c, p).email == c.email
    ensures p.avatar.None? ==> Merge(c, p).avatar == c.avatar
    ensures p.isFavorite.None? ==> Merge(c, p).isFavorite == c.isFavorite
    ensures Merge(c, EmptyPatch) == c
  {
  }

  /** Merging is idempotent, and merging twice is merging the combination. */
  lemma MergeComposes(c: Contact, p: ContactPatch, q: ContactPatch)
    ensures Merge(Merge(c, p), q) == Merge(c, Then(p, q))
    ensures Merge(Merge(c, p), p) == Merge(c, p)
  {
  }

  /** The filter of `searchContacts`: the lower-cased name contains the
      lower-cased query, or the phone contains the query as typed, or there is
      a non-empty email whose lower-cased form contains the lower-cased query. */
  predicate Matches(c: Contact, query: string)
    ensures Text.Contains(c.phone, query) ==> Matches(c, query)
    ensures Text.Contains(Text.Lower(c.name), Text.Lower(query)) ==> Matches(c, query)
    ensures c.email.Some? && c.email.value != "" && Text.Contains(Text.Lower(c.email.value), Text.Lower(query)) ==>
      Matches(c, query)
    ensures Matches(c, query) ==>
      || Text.Contains(Text.Lower(c.name), Text.Lower(query))
      || Text.Contains(c.phone, query)
      || (c.email.Some? && c.email.value != "" && Text.Contains(Text.Lower(c.email.value), Text.Lower(query)))
  {
    var q := Text.Lower(query);
    || Text.Contains(Text.Lower(c.name), q)
    || Text.Contains(c.phone, query)
    || (c.email.Some? && c.email.value != "" && Text.Contains(Text.Lower(c.email.value), q))
  }

  /** An empty email is falsy, so it matches as no email at all does. */
  lemma EmptyEmailIsNoEmail(c: Contact, query: string)
    requires c.email == Some("")
    ensures Matches(c, query) == Matches(c.(email := None), query)
  {
  }

  /** Matching the empty query holds of every contact. */
  lemma EverythingMatchesEmpty(c: Contact)
    ensures Matches(c, "")
  {
    assert Text.OccursAt(Text.Lower(c.name), Text.Lower(""), 0);
  }

  class MemStorage {
    var contacts: map<string, Contact>
    var callLogs: map<string, CallLog>
    /** Every identifier the id supply has handed out so far. */
    var issued: set<string>

    /** Each record is stored under its own identifier, and every identifier
        in use came from the supply. */
    ghost predicate Valid()
      reads this
    {
      && (forall id :: id in contacts ==> contacts[id].id == id)
      && (forall id :: id in callLogs ==> callLogs[id].id == id)
      && contacts.Keys <= issued
      && callLogs.Keys <= issued
    }

    constructor()
      ensures Valid()
      ensures contacts == map[] && callLogs == map[] && issued == {}
    {
      contacts := map[];
      callLogs := map[];
      issued := {};
    }

    /** A non-empty identifier never handed out before. Like a UUID, it is
        never the word "search", which GET routes to the search endpoint
        ahead of `/:id`. */
    method FreshId() returns (id: string)
      modifies this`issued
      ensures id !in old(issued) && id != "" && id != "search"
      ensures issued == old(issued) + {id}
    {
      Collections.FreshExists(issued + {"search"});
      id :| id !in issued + {"search"} && id != "";
      issued := issued + {id};
    }

    // -------------------------------------------------------------------
    // Contacts
    // -------------------------------------------------------------------

    /** `getContacts()`: every stored contact exactly once, ordered by name. */
    method GetContacts() returns (r: seq<Contact>)
      requires Valid()
      ensures Listing.SortedByName(r)
      ensures multiset(r) == multiset(contacts.Values)
      ensures |r| == |contacts|
    {
      assert Collections.Injective(contacts);
      var all := Collections.ValuesOf(contacts);
      r := Listing.SortByName(all);
      assert |r| == |multiset(r)| == |multiset(all)| == |all|;
    }

    /** `getContact(id)`: the contact stored under `id`, if any. */
    function GetContact(id: string): (r: Option<Contact>)
      reads this
      ensures r.Some? <==> id in contacts
      ensures r.Some? ==> r.value == contacts[id]
      ensures Valid() && r.Some? ==> r.value.id == id
    {
      if id in contacts then Some(contacts[id]) else None
    }

    /** `createContact(insert)`: stores the insert under a fresh identifier,
        stamped with the clock reading; nothing else changes. */
    method CreateContact(ins: InsertContact, now: nat) returns (c: Contact)
      requires Valid()
      modifies this
      ensures Valid()
      ensures c.id !in old(issued) && c.id !in old(contacts) && c.id != "" && c.id != "search"
      ensures c == NewContact(ins, c.id, now)
      ensures contacts == old(contacts)[c.id := c]
      ensures contacts.Keys == old(contacts.Keys) + {c.id} && |contacts| == |old(contacts)| + 1
      ensures callLogs == old(callLogs) && issued == old(issued) + {c.id}
      ensures GetContact(c.id) == Some(c)
    {
      var id := FreshId();
      c := NewContact(ins, id, now);
      contacts := contacts[id := c];
    }

    /** `updateContact(id, patch)`: for a stored id, the merged contact
        replaces the stored one under the same key; otherwise nothing
        changes and there is no result. */
    method UpdateContact(id: string, patch: ContactPatch) returns (r: Option<Contact>)
      requires Valid()
      modifies this`contacts
      ensures Valid()
      ensures id !in old(contacts) ==> r == None && contacts == old(contacts)
      ensures id in old(contacts) ==>
        && r == Some(Merge(old(contacts)[id], patch))
        && contacts == old(contacts)[id := r.value]
        && contacts.Keys == old(contacts.Keys)
      ensures callLogs == old(callLogs) && issued == old(issued)
    {
      if id !in contacts {
        return None;
      }
      var updated := Merge(contacts[id], patch);
      contacts := contacts[id := updated];
      r := Some(updated);
    }

    /** `deleteContact(id)`: true exactly when `id` was stored; afterwards it
        is not, and every other contact is as before. */
    method DeleteContact(id: string) returns (deleted: bool)
      requires Valid()
      modifies this`contacts
      ensures Valid()
      ensures deleted == (id in old(contacts))
      ensures contacts == old(contacts) - {id}
      ensures GetContact(id) == None
      ensures callLogs == old(callLogs) && issued == old(issued)
    {
      deleted := id in contacts;
      contacts := contacts - {id};
    }

    /** `searchContacts(query)`: exactly the stored contacts that match,
        each once, ordered by name as `getContacts` orders them. */
    method SearchContacts(query: string) returns (r: seq<Contact>)
      requires Valid()
      ensures Listing.SortedByName(r)
      ensures multiset(r) == multiset(set c | c in contacts.Values && Matches(c, query))
    {
      assert Collections.Injective(contacts);
      var all := Collections.ValuesOf(contacts);
      var hits := Collections.Filter(all, c => Matches(c, query));
      r := Listing.SortByName(hits);
    }

    // -------------------------------------------------------------------
    // Call logs
    // -------------------------------------------------------------------

    /** `getCallLogs()`: every stored call log exactly once, most recent
        first. */
    method GetCallLogs() returns (r: seq<CallLog>)
      requires Valid()
      ensures Listing.NewestFirst(r)
      ensures multiset(r) == multiset(callLogs.Values)
      ensures |r| == |callLogs|
    {
      assert Collections.Injective(callLogs);
      var all := Collections.ValuesOf(callLogs);
      r := Listing.SortNewestFirst(all);
      assert |r| == |multiset(r)| == |multiset(all)| == |all|;
    }

    /** `createCallLog(insert)`: stores the insert under a fresh identifier,
        stamped with the clock reading; nothing else changes. `contactId` is
        stored as given, whether or not it names a contact. */
    method CreateCallLog(ins: InsertCallLog, now: nat) returns (l: CallLog)
      requires Valid()
      modifies this
      ensures Valid()
      ensures l.id !in old(issued) && l.id !in old(callLogs) && l.id != "" && l.id != "search"
      ensures l == NewCallLog(ins, l.id, now)
      ensures callLogs == old(callLogs)[l.id := l]
      ensures callLogs.Keys == old(callLogs.Keys) + {l.id} && |callLogs| == |old(callLogs)| + 1
      ensures contacts == old(contacts) && issued == old(issued) + {l.id}
    {
      var id := FreshId();
      l := NewCallLog(ins, id, now);
      callLogs := callLogs[id := l];
    }

    /** `deleteCallLog(id)`: true exactly when `id` was stored; afterwards it
        is not, and every other call log is as before. */
    method DeleteCallLog(id: string) returns (deleted: bool)
      requires Valid()
      modifies this`callLogs
      ensures Valid()
      ensures deleted == (id in old(callLogs))
      ensures callLogs == old(callLogs) - {id}
      ensures contacts == old(contacts) && issued == old(issued)
    {
      deleted := id in callLogs;
      callLogs := callLogs - {id};
    }

    /** `clearCallLogs()`: always succeeds and leaves no call log. */
    method ClearCallLogs() returns (ok: bool)
      requires Valid()
      modifies this`callLogs
      ensures Valid()
      ensures ok
      ensures callLogs == map[]
      ensures contacts == old(contacts) && issued == old(issued)
    {
      callLogs := map[];
      ok := true;
    }
  }
}
