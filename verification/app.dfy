/** The component's state and its event handlers: the booking form (field edits,
    submit, Reset) and the product cart (toggle, Clear). Each handler is one atomic
    transition of the state. */
module App {
  import opened Bookings
  import opened Validation
  import opened Cart

  datatype Option<T> = None | Some(value: T)

  /** Where the success path addresses its e-mail draft. */
  const ContactAddress: string := "hello@digitaldukan.co.in"

  /** The e-mail draft the browser is asked to open after a successful submit: the
      subject names the submitter, the body carries the whole submitted record. */
  datatype MailDraft = MailDraft(to: string, subjectName: string, body: Booking)

  class DigitalDukan {
    /** The form's current field values. */
    var booking: Booking
    /** The messages shown under the fields, from the latest submit. */
    var errors: Errors
    /** Whether the success banner is shown. */
    var sent: bool
    var productCart: seq<Product>
    /** The value under the 'lastBooking' key of the browser's local storage. */
    var lastBooking: Option<Booking>
    /** Every draft handed to the mail client, oldest first. */
    ghost var drafts: seq<MailDraft>

    /** The cart never holds two entries with one id; only checked fields carry
        errors; once the banner shows, the stored booking is the record of the last
        draft handed to the mail client. */
    ghost predicate Valid()
      reads this
    {
      NoDupIds(productCart)
      && errors.Keys <= Checked
      && (sent ==> |drafts| > 0 && lastBooking == Some(drafts[|drafts| - 1].body))
    }

    /** The component as mounted: default form, no errors, no banner, empty cart.
        Local storage may still hold a booking from an earlier visit. */
    constructor (stored: Option<Booking>)
      ensures Valid()
      ensures booking == Empty && errors == map[] && !sent && productCart == []
      ensures lastBooking == stored && drafts == []
    {
      booking := Empty;
      errors := map[];
      sent := false;
      productCart := [];
      lastBooking := stored;
      drafts := [];
    }

    /** `handleBookingChange`: the edited field takes the new value; nothing else
        changes, the messages of the last submit included. */
    method ChangeField(f: Field, value: string)
      requires Valid()
      modifies this
      ensures Valid()
      ensures Get(booking, f) == value
      ensures forall g :: g != f ==> Get(booking, g) == Get(old(booking), g)
      ensures errors == old(errors) && sent == old(sent) && productCart == old(productCart)
      ensures lastBooking == old(lastBooking) && drafts == old(drafts)
    {
      booking := Set(booking, f, value);
    }

    /** `submitBooking`: the errors become exactly the validator's verdict on the
        current record. If there is any, nothing else changes and the form keeps its
        values. Otherwise the record is stored, the banner shows, the form returns to
        its defaults and a mail draft of the submitted record is handed over. */
    method Submit()
      requires Valid()
      modifies this
      ensures Valid()
      ensures errors == ValidateBooking(old(booking))
      ensures productCart == old(productCart)
      ensures |errors| > 0 ==>
        booking == old(booking) && sent == old(sent)
        && lastBooking == old(lastBooking) && drafts == old(drafts)
      ensures |errors| == 0 ==>
        booking == Empty && sent && lastBooking == Some(old(booking))
        && drafts == old(drafts) + [MailDraft(ContactAddress, old(booking).name, old(booking))]
    {
      var e := CheckBooking(booking);
      errors := e;
      if |e| > 0 {
        return;
      }
      var submitted := booking;
      sent := true;
      lastBooking := Some(submitted);
      booking := Empty;
      drafts := drafts + [MailDraft(ContactAddress, submitted.name, submitted)];
    }

    /** The Reset button: default form and no errors; the banner, the cart and the
        stored booking stay as they were. */
    method Reset()
      requires Valid()
      modifies this
      ensures Valid()
      ensures booking == Empty && errors == map[]
      ensures sent == old(sent) && productCart == old(productCart)
      ensures lastBooking == old(lastBooking) && drafts == old(drafts)
    {
      booking := Empty;
      errors := map[];
    }

    /** `toggleCart(p)`: the cart becomes `Toggle(cart, p)`; the form is untouched. */
    method ToggleCart(p: Product)
      requires Valid()
      modifies this
      ensures Valid()
      ensures productCart == Toggle(old(productCart), p)
      ensures booking == old(booking) && errors == old(errors) && sent == old(sent)
      ensures lastBooking == old(lastBooking) && drafts == old(drafts)
    {
      productCart := Toggle(productCart, p);
    }

    /** The Clear button: the cart is empty, whatever it held; the form is untouched. */
    method ClearCart()
      requires Valid()
      modifies this
      ensures Valid()
      ensures productCart == []
      ensures booking == old(booking) && errors == old(errors) && sent == old(sent)
      ensures lastBooking == old(lastBooking) && drafts == old(drafts)
    {
      productCart := [];
    }
  }

  /** A submit with an empty name, a short phone, a malformed email and no date:
      every checked field gets its message and the form keeps what was typed. */
  method InvalidSubmitSession()
  {
    var app := new DigitalDukan(None);
    app.ChangeField(Phone, "123");
    app.ChangeField(Email, "bad");
    var typed := Booking("", "123", "bad", "digital", "", "", "", "");
    FieldsDetermineBooking(app.booking, typed);
    ExampleInvalidBooking();
    app.Submit();
    assert app.errors.Keys == Checked;
    assert app.booking == typed && !app.sent && app.lastBooking == None;
  }

  /** A complete booking: it is stored, the banner shows and the form is cleared. */
  method ValidSubmitSession()
  {
    var app := new DigitalDukan(None);
    app.ChangeField(Name, "Asha");
    app.ChangeField(Phone, "+91 98765 43210");
    app.ChangeField(Email, "a@b.co");
    app.ChangeField(Date, "2025-05-01");
    var asha := Booking("Asha", "+91 98765 43210", "a@b.co", "digital", "2025-05-01", "", "", "");
    FieldsDetermineBooking(app.booking, asha);
    ExampleValidBooking();
    app.Submit();
    assert app.sent && app.booking == Empty && app.errors == map[];
    assert app.lastBooking == Some(asha);
  }

  /** A product toggled on and off leaves the cart as it was; Clear twice leaves it
      empty. */
  method CartSession(p: Product)
  {
    var app := new DigitalDukan(None);
    app.ToggleCart(p);
    app.ToggleCart(p);
    ToggleAbsentTwice([], p);
    assert app.productCart == [];
    app.ToggleCart(p);
    app.ClearCart();
    app.ClearCart();
    assert app.productCart == [];
  }
}
