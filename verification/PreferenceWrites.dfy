/**
 What a preference write accepts, in bytes, and what writing the same again does.
 */
module PreferenceWrites {
  import opened InboxState
  import opened InboxSteps
  import opened InboxInvariant

  // ---------------------------------------------------------------- lengths in bytes

  /** A character in UTF-8 (RFC 3629, section 3). */
  function Utf8Bytes(c: char): (bytes: seq<nat>)
    ensures 1 <= |bytes| <= 4 && forall b | b in bytes :: b < 256
  {
    var n := c as int;
    if n < 0x80 then [n]
    else if n < 0x800 then [0xC0 + n / 64, 0x80 + n % 64]
    else if n < 0x1_0000 then [0xE0 + n / 4096, 0x80 + n / 64 % 64, 0x80 + n % 64]
    else [0xF0 + n / 262144, 0x80 + n / 4096 % 64, 0x80 + n / 64 % 64, 0x80 + n % 64]
  }

  /** How long the first byte says the sequence is. */
  function LengthOfLead(b: nat): nat {
    if b < 0xC0 then 1 else if b < 0xE0 then 2 else if b < 0xF0 then 3 else 4
  }

  /** The bytes say how many they are, and which character they stand for. */
  lemma BytesDecode(c: char)
    ensures
      var bytes := Utf8Bytes(c);
      && |bytes| == LengthOfLead(bytes[0])
      && c as int == match |bytes|
                     case 1 => bytes[0]
                     case 2 => (bytes[0] - 0xC0) * 64 + (bytes[1] - 0x80)
                     case 3 => (bytes[0] - 0xE0) * 4096 + (bytes[1] - 0x80) * 64 + (bytes[2] - 0x80)
                     case _ => (bytes[0] - 0xF0) * 262144 + (bytes[1] - 0x80) * 4096 + (bytes[2] - 0x80) * 64 + (bytes[3] - 0x80)
  {
    var n := c as int;
    SixBits(n);
    SixBits(n / 64);
    SixBits(n / 4096);
  }

  lemma SixBits(n: nat)
    ensures n == n / 64 * 64 + n % 64
    ensures n / 64 / 64 == n / 4096 && n / 4096 / 64 == n / 262144
  {
  }

  function Utf8(s: string): seq<nat> {
    if s == "" then [] else Utf8(s[..|s| - 1]) + Utf8Bytes(s[|s| - 1])
  }

  lemma {:induction false} LengthIsOfTheBytes(s: string)
    ensures Utf8Length(s) == |Utf8(s)|
  {
    if s != "" {
      LengthIsOfTheBytes(s[..|s| - 1]);
    }
  }

  // ---------------------------------------------------------------- limits

  /** An entry the API refuses: another channel, or a category of no or more than 255 bytes. */
  predicate BadEntry(p: Preference) {
    p.channel != "in_app" || |Utf8(p.category)| == 0 || |Utf8(p.category)| > 255
  }

  /** One bad entry, none, or more than a hundred, and nothing is written; otherwise all of them are. */
  lemma AllOrNothing(db: Db, s: SubId, entries: seq<Preference>, job: JobId, begin: Time)
    ensures
      var db' := WritePreferences(db, s, entries, job, begin);
      if entries == [] || |entries| > 100 || exists p :: p in entries && BadEntry(p)
      then db' == db && !WellFormedWrite(entries)
      else db'.preferences == WriteMany(db.preferences, s, entries) && WellFormedWrite(entries)
  {
    hide WriteMany, TouchesARow, WellFormedWrite, BadEntry;
    AcceptedIff(entries);
    if WellFormedWrite(entries) && !TouchesARow(db.preferences, s, entries) {
      UntouchedMeansUnchanged(db.preferences, s, entries);
    }
  }

  lemma AcceptedIff(entries: seq<Preference>)
    ensures WellFormedWrite(entries) <==> entries != [] && |entries| <= 100 && forall p | p in entries :: !BadEntry(p)
  {
    hide Utf8, Utf8Length;
    forall p | p in entries ensures Utf8Length(p.category) == |Utf8(p.category)| {
      LengthIsOfTheBytes(p.category);
    }
  }

  // ---------------------------------------------------------------- writing again

  /** Every entry is what the table says already. */
  predicate Holds(preferences: map<(SubId, Category), bool>, s: SubId, entries: seq<Preference>) {
    forall p | p in entries ::
      if p.enabled then (s, p.category) !in preferences
      else (s, p.category) in preferences && !preferences[(s, p.category)]
  }

  lemma {:induction false} NothingToWrite(preferences: map<(SubId, Category), bool>, s: SubId, entries: seq<Preference>)
    requires Holds(preferences, s, entries)
    ensures WriteMany(preferences, s, entries) == preferences
  {
    if entries != [] {
      var n := |entries| - 1;
      assert forall p | p in entries[..n] :: p in entries;
      assert entries[n] in entries;
      NothingToWrite(preferences, s, entries[..n]);
    }
  }

  /** A write of what holds already changes nothing, and no recount is owed for it. */
  lemma WritingAgainOwesNothing(db: Db, s: SubId, entries: seq<Preference>, job: JobId, begin: Time)
    requires Holds(db.preferences, s, entries)
    ensures WritePreferences(db, s, entries, job, begin) == db
  {
    hide WriteMany, WellFormedWrite;
    forall i | 0 <= i <= |entries| ensures WriteMany(db.preferences, s, entries[..i]) == db.preferences {
      assert forall p | p in entries[..i] :: p in entries;
      NothingToWrite(db.preferences, s, entries[..i]);
    }
    assert entries[..|entries|] == entries;
    assert forall i | 0 <= i < |entries| :: entries[i] in entries;
  }

  /** Entries that do not contradict one another hold once they are written. */
  lemma WrittenHolds(preferences: map<(SubId, Category), bool>, s: SubId, entries: seq<Preference>)
    requires forall i, j | 0 <= i < j < |entries| :: entries[i].category != entries[j].category
    ensures Holds(WriteMany(preferences, s, entries), s, entries)
  {
    hide WriteMany;
    forall i | 0 <= i < |entries|
      ensures
        var after, k := WriteMany(preferences, s, entries), (s, entries[i].category);
        if entries[i].enabled then k !in after else k in after && !after[k]
    {
      LastEntryDecides(preferences, s, entries, i);
    }
  }
}
