/** The booking form's record: eight text fields, addressed by the `name` attribute of
    the input that edits them. */
module Bookings {

  /** The `name` attributes of the form's eight inputs. */
  datatype Field = Name | Phone | Email | Service | Date | Time | Address | Message

  datatype Booking = Booking(
    name: string, phone: string, email: string, service: string,
    date: string, time: string, address: string, message: string)

  /** The id of the first service in the catalog, which the form starts on. */
  const DefaultService: string := "digital"

  /** The record the form starts from, and returns to after a successful submit or a
      Reset: every field empty except the service. */
  const Empty: Booking := Booking("", "", "", DefaultService, "", "", "", "")

  /** `b[f]` */
  function Get(b: Booking, f: Field): string
  {
    match f
    case Name => b.name
    case Phone => b.phone
    case Email => b.email
    case Service => b.service
    case Date => b.date
    case Time => b.time
    case Address => b.address
    case Message => b.message
  }

  /** `{ ...b, [f]: v }`: the field `f` now holds `v`, every other field is as in `b`. */
  function Set(b: Booking, f: Field, v: string): (r: Booking)
    ensures Get(r, f) == v
    ensures forall g :: g != f ==> Get(r, g) == Get(b, g)
  {
    match f
    case Name => b.(name := v)
    case Phone => b.(phone := v)
    case Email => b.(email := v)
    case Service => b.(service := v)
    case Date => b.(date := v)
    case Time => b.(time := v)
    case Address => b.(address := v)
    case Message => b.(message := v)
  }

  /** A booking is nothing but its eight fields. */
  lemma {:induction false} FieldsDetermineBooking(b1: Booking, b2: Booking)
    requires forall f :: Get(b1, f) == Get(b2, f)
    ensures b1 == b2
  {
    assert Get(b1, Name) == Get(b2, Name) && Get(b1, Phone) == Get(b2, Phone);
    assert Get(b1, Email) == Get(b2, Email) && Get(b1, Service) == Get(b2, Service);
    assert Get(b1, Date) == Get(b2, Date) && Get(b1, Time) == Get(b2, Time);
    assert Get(b1, Address) == Get(b2, Address) && Get(b1, Message) == Get(b2, Message);
  }

  /** Two edits of one field: only the later one is seen. */
  lemma {:induction false} SetSetSameField(b: Booking, f: Field, v: string, w: string)
    ensures Set(Set(b, f, v), f, w) == Set(b, f, w)
  {
    forall g ensures Get(Set(Set(b, f, v), f, w), g) == Get(Set(b, f, w), g) {
    }
    FieldsDetermineBooking(Set(Set(b, f, v), f, w), Set(b, f, w));
  }

  /** Edits of two different fields commute. */
  lemma {:induction false} SetSetCommute(b: Booking, f: Field, v: string, g: Field, w: string)
    requires f != g
    ensures Set(Set(b, f, v), g, w) == Set(Set(b, g, w), f, v)
  {
    forall h ensures Get(Set(Set(b, f, v), g, w), h) == Get(Set(Set(b, g, w), f, v), h) {
    }
    FieldsDetermineBooking(Set(Set(b, f, v), g, w), Set(Set(b, g, w), f, v));
  }
}
