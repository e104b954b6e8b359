/** The itinerary document that one generation request renders.
    Optional JSON fields are modelled by their "absent" value: an empty
    sequence for a missing list, `None` for a missing object and the empty
    string for a missing or empty text (all of which JavaScript treats as
    falsy in the renderer's `x || placeholder` and `if (x)` tests). */
module Itinerary {

  datatype Option<+T> = None | Some(value: T)

  /** One activity of a day; `kind` is the JSON field `type`
      ("morning", "afternoon", "evening", or any other text). */
  datatype Activity = Activity(name: string, description: string, kind: string)

  datatype DayPlan = DayPlan(day: int, date: string, activities: seq<Activity>)

  datatype Flight = Flight(date: string, airline: string, origin: string, destination: string)

  datatype Hotel = Hotel(city: string, checkIn: string, checkOut: string, nights: int, name: string)

  /** `description` is the due date shown in the installment table. */
  datatype Installment = Installment(name: string, amount: int, description: string)

  datatype PaymentPlan = PaymentPlan(totalAmount: int, tcsCollected: bool, installments: seq<Installment>)

  datatype VisaDetails = VisaDetails(visaType: string, validity: string, processingDate: string)

  datatype TripDetails = TripDetails(
    customerName: string,
    destination: string,
    days: int,
    nights: int,
    departureFrom: string,
    departureDate: string,
    arrivalDate: string,
    numberOfTravelers: int)

  datatype Document = Document(
    tripDetails: TripDetails,
    dailyItinerary: seq<DayPlan>,
    flights: seq<Flight>,
    hotels: seq<Hotel>,
    paymentPlan: Option<PaymentPlan>,
    visaDetails: Option<VisaDetails>)

  /** Number formatting as done by `toLocaleString()`: locale dependent, so
      the renderer receives it from its caller. */
  type AmountFormat = int -> string

  function DigitChar(d: nat): (c: char)
    requires d < 10
    ensures '0' <= c <= '9' && c as int - '0' as int == d
  {
    "0123456789"[d]
  }

  /** The number a string of decimal digits spells, read left to right. */
  function DigitsValue(s: string): int
    decreases |s|
  {
    if s == [] then 0 else 10 * DigitsValue(s[..|s| - 1]) + (s[|s| - 1] as int - '0' as int)
  }

  /** Decimal digits of `n`: what `String(n)` prints for a non-negative
      integer up to 2^53, the range in which a JavaScript number is exact. */
  function NatToString(n: nat): (s: string)
    ensures |s| > 0
    ensures forall k | 0 <= k < |s| :: '0' <= s[k] <= '9'
    decreases n
  {
    if n < 10 then [DigitChar(n)] else NatToString(n / 10) + [DigitChar(n % 10)]
  }

  /** The digits spell `n`, with no leading zero. */
  lemma {:induction false} NatToStringValue(n: nat)
    ensures DigitsValue(NatToString(n)) == n
    ensures |NatToString(n)| > 1 ==> NatToString(n)[0] != '0'
    decreases n
  {
    if n >= 10 {
      NatToStringValue(n / 10);
      var s := NatToString(n);
      var front := NatToString(n / 10);
      assert s == front + [DigitChar(n % 10)];
      assert s[..|s| - 1] == front;
      assert s[0] == front[0];
      if |front| == 1 {
        assert DigitsValue(front) == DigitChar(n / 10) as int - '0' as int by {
          assert front == [DigitChar(n / 10)];
          assert front[..0] == [];
        }
      }
    }
  }

  /** `String(n)` for an integer of magnitude at most 2^53. */
  function IntToString(n: int): string
  {
    if n < 0 then "-" + NatToString(-n) else NatToString(n)
  }

  /** A non-negative number prints as its digits; a negative one as `-`
      followed by the digits of its magnitude. */
  lemma IntToStringValue(n: int)
    ensures n >= 0 ==> DigitsValue(IntToString(n)) == n
    ensures n < 0 ==> IntToString(n)[0] == '-' && DigitsValue(IntToString(n)[1..]) == -n
    ensures |IntToString(n)| > 1 && IntToString(n)[0] != '-' ==> IntToString(n)[0] != '0'
    ensures n < 0 ==> IntToString(n)[1] != '0'
  {
    if n < 0 {
      var m: nat := -n;
      var digits := NatToString(m);
      NatToStringValue(m);
      assert IntToString(n) == "-" + digits;
      assert IntToString(n)[1..] == digits && IntToString(n)[1] == digits[0];
      if m < 10 {
        assert digits[0] == DigitChar(m);
      }
    } else {
      NatToStringValue(n);
    }
  }
}
