/**
 The cached user profile and its text form in the key-value store.

 In the screen the profile is a plain object, or null. Registration builds
 it with seven string fields; the edit handlers rebuild it with the spread
 `{ ...userProfile, field: text }`, and spreading null gives an object that
 holds only the edited field. So each field here is optional, and the whole
 profile is an Option (None stands for null).

 The store keeps the profile as text produced by JSON.stringify and read
 back by JSON.parse. The encoding below stands in for that pair: its text
 is not JSON, but it is proved to read back exactly what was written, which
 is the only property of JSON the screen relies on.
 */
module Profiles {

  datatype Option<T> = None | Some(value: T) {
    function GetOr(default: T): T {
      match this
      case Some(v) => v
      case None => default
    }
  }

  /** The fields of the profile record, in the order registration writes them. */
  datatype Field = Username | FirstName | LastName | Email | ContactNumber | Address | ProfilePicture

  datatype Profile = Profile(
    username: Option<string>,
    firstName: Option<string>,
    lastName: Option<string>,
    email: Option<string>,
    contactNumber: Option<string>,
    address: Option<string>,
    profilePicture: Option<string>)

  /** The object `{}`: what spreading null contributes. */
  const Blank := Profile(None, None, None, None, None, None, None)

  /** Property access `profile.field` (None for a field the object lacks). */
  function Get(p: Profile, f: Field): Option<string> {
    match f
    case Username => p.username
    case FirstName => p.firstName
    case LastName => p.lastName
    case Email => p.email
    case ContactNumber => p.contactNumber
    case Address => p.address
    case ProfilePicture => p.profilePicture
  }

  /** `{ ...p, f: text }`: field f becomes text and every other field is kept. */
  function With(p: Profile, f: Field, text: string): (r: Profile)
    ensures Get(r, f) == Some(text)
    ensures forall g :: g != f ==> Get(r, g) == Get(p, g)
  {
    match f
    case Username => p.(username := Some(text))
    case FirstName => p.(firstName := Some(text))
    case LastName => p.(lastName := Some(text))
    case Email => p.(email := Some(text))
    case ContactNumber => p.(contactNumber := Some(text))
    case Address => p.(address := Some(text))
    case ProfilePicture => p.(profilePicture := Some(text))
  }

  // ---------------------------------------------------------------------
  // Text form
  // ---------------------------------------------------------------------

  /** The fields as a list, in declaration order. */
  function Slots(p: Profile): (fs: seq<Option<string>>)
    ensures |fs| == 7
  {
    [p.username, p.firstName, p.lastName, p.email, p.contactNumber, p.address, p.profilePicture]
  }

  function FromSlots(fs: seq<Option<string>>): Profile
    requires |fs| == 7
  {
    Profile(fs[0], fs[1], fs[2], fs[3], fs[4], fs[5], fs[6])
  }

  /** Backslash before every quote and every backslash. */
  function Escape(s: string): string {
    if s == [] then []
    else (if s[0] == '"' || s[0] == '\\' then ['\\', s[0]] else [s[0]]) + Escape(s[1..])
  }

  /** A present field is its quoted, escaped text; a missing one is the marker 'u'. */
  function EncodeSlot(o: Option<string>): string {
    match o
    case None => "u"
    case Some(s) => "\"" + Escape(s) + "\""
  }

  function EncodeSlots(fs: seq<Option<string>>): string {
    if fs == [] then "" else EncodeSlot(fs[0]) + EncodeSlots(fs[1..])
  }

  /** JSON.stringify of the profile state: "null" for null, otherwise the seven slots in braces. */
  function Encode(v: Option<Profile>): (text: string)
    ensures text != ""
  {
    match v
    case None => "null"
    case Some(p) => "{" + EncodeSlots(Slots(p)) + "}"
  }

  /** Reads an escaped string up to its closing quote; returns it and what follows. */
  function ParseStringBody(t: string): Option<(string, string)>
    decreases |t|
  {
    if t == [] then None
    else if t[0] == '"' then Some(([], t[1..]))
    else if t[0] == '\\' then
      if |t| < 2 then None
      else match ParseStringBody(t[2..])
        case None => None
        case Some((s, rest)) => Some(([t[1]] + s, rest))
    else match ParseStringBody(t[1..])
      case None => None
      case Some((s, rest)) => Some(([t[0]] + s, rest))
  }

  function ParseSlot(t: string): Option<(Option<string>, string)> {
    if |t| >= 1 && t[0] == 'u' then Some((None, t[1..]))
    else if |t| >= 1 && t[0] == '"' then
      match ParseStringBody(t[1..])
      case None => None
      case Some((s, rest)) => Some((Some(s), rest))
    else None
  }

  /** Reads n slots in a row. */
  function ParseSlots(t: string, n: nat): (r: Option<(seq<Option<string>>, string)>)
    ensures r.Some? ==> |r.value.0| == n
    decreases n
  {
    if n == 0 then Some(([], t))
    else match ParseSlot(t)
      case None => None
      case Some((o, rest)) =>
        match ParseSlots(rest, n - 1)
        case None => None
        case Some((os, rest')) => Some(([o] + os, rest'))
  }

  /**
   JSON.parse of stored text: Some(v) when the text is the encoding of the
   profile state v, None when parsing fails (JSON.parse would throw).
   */
  function Decode(text: string): Option<Option<Profile>> {
    if text == "null" then Some(None)
    else if |text| >= 1 && text[0] == '{' then
      match ParseSlots(text[1..], 7)
      case None => None
      case Some((fs, rest)) => if rest == "}" then Some(Some(FromSlots(fs))) else None
    else None
  }

  lemma {:induction false} StringRoundTrip(s: string, rest: string)
    ensures ParseStringBody(Escape(s) + "\"" + rest) == Some((s, rest))
  {
    if s == [] {
      assert Escape(s) + "\"" + rest == ['"'] + rest;
    } else {
      var t := Escape(s) + "\"" + rest;
      var tail := Escape(s[1..]) + "\"" + rest;
      StringRoundTrip(s[1..], rest);
      if s[0] == '"' || s[0] == '\\' {
        assert t == ['\\', s[0]] + tail;
        assert t[2..] == tail;
      } else {
        assert t == [s[0]] + tail;
        assert t[1..] == tail;
      }
      assert [s[0]] + s[1..] == s;
    }
  }

  lemma SlotRoundTrip(o: Option<string>, rest: string)
    ensures ParseSlot(EncodeSlot(o) + rest) == Some((o, rest))
  {
    match o
    case None =>
      assert (EncodeSlot(o) + rest)[1..] == rest;
    case Some(s) =>
      var t := EncodeSlot(o) + rest;
      assert t[1..] == Escape(s) + "\"" + rest;
      StringRoundTrip(s, rest);
  }

  lemma {:induction false} SlotsRoundTrip(fs: seq<Option<string>>, rest: string)
    ensures ParseSlots(EncodeSlots(fs) + rest, |fs|) == Some((fs, rest))
  {
    if fs == [] {
      assert EncodeSlots(fs) + rest == rest;
    } else {
      var tail := EncodeSlots(fs[1..]) + rest;
      assert EncodeSlots(fs) + rest == EncodeSlot(fs[0]) + tail;
      SlotRoundTrip(fs[0], tail);
      SlotsRoundTrip(fs[1..], rest);
      assert ParseSlot(EncodeSlots(fs) + rest) == Some((fs[0], tail));
      assert ParseSlots(tail, |fs| - 1) == Some((fs[1..], rest));
      assert [fs[0]] + fs[1..] == fs;
    }
  }

  /** Reading back what was stored gives the stored profile state, null included. */
  lemma DecodeEncode(v: Option<Profile>)
    ensures Decode(Encode(v)) == Some(v)
  {
    match v
    case None =>
    case Some(p) =>
      var text := Encode(v);
      assert text[1..] == EncodeSlots(Slots(p)) + "}";
      SlotsRoundTrip(Slots(p), "}");
  }
}
