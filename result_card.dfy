/** The shared `ResultCard` component: a card whose data-leak details fold open
    behind a toggle, list at most five leaks with defaults for missing fields, and
    colour each data-class badge by the words its label contains. */
module ResultCard {
  import opened Js
  import opened Text

  datatype Badge = RedBadge | BlueBadge | GreenBadge | PurpleBadge | GrayBadge

  /** `getBadgeColor`: the first of "password", "email", "phone", "ip" that the
      lower-cased label contains decides, else gray. */
  function BadgeColor(tag: string): Badge {
    var lower := Lower(tag);
    if Includes(lower, "password") then RedBadge
    else if Includes(lower, "email") then BlueBadge
    else if Includes(lower, "phone") then GreenBadge
    else if Includes(lower, "ip") then PurpleBadge
    else GrayBadge
  }

  /** Each colour is given exactly when its word occurs in the lower-cased label and
      no word of higher priority does. */
  lemma BadgePriority(tag: string)
    ensures var l := Lower(tag);
            && (BadgeColor(tag) == RedBadge <==> Occurs("password", l))
            && (BadgeColor(tag) == BlueBadge <==> !Occurs("password", l) && Occurs("email", l))
            && (BadgeColor(tag) == GreenBadge <==> !Occurs("password", l) && !Occurs("email", l) && Occurs("phone", l))
            && (BadgeColor(tag) == PurpleBadge <==>
                  !Occurs("password", l) && !Occurs("email", l) && !Occurs("phone", l) && Occurs("ip", l))
            && (BadgeColor(tag) == GrayBadge <==>
                  !Occurs("password", l) && !Occurs("email", l) && !Occurs("phone", l) && !Occurs("ip", l))
  {
    var l := Lower(tag);
    IncludesIff(l, "password");
    IncludesIff(l, "email");
    IncludesIff(l, "phone");
    IncludesIff(l, "ip");
  }

  /** The label's letter case does not matter, for the ASCII case mapping
      modelled here. */
  lemma BadgeIgnoresCase(tag: string)
    ensures BadgeColor(Upper(tag)) == BadgeColor(tag)
  {
    LowerOfUpper(tag);
  }

  /** "Email Password" names both words; "password" wins. */
  lemma PasswordBeatsEmail()
    ensures BadgeColor("Email Password") == RedBadge
  {
    var l := Lower("Email Password");
    assert l[6..14] == "password";
    assert MatchAt(l, "password", 6);
    BadgePriority("Email Password");
  }

  /** "Shipping" contains "ip" and none of the other words, so it is purple. */
  lemma ShippingIsPurple()
    ensures BadgeColor("Shipping") == PurpleBadge
  {
    var l := Lower("Shipping");
    assert l == "shipping";
    assert MatchAt(l, "ip", 2);
    AbsentLetter("password", l, 'w');
    AbsentLetter("email", l, 'e');
    AbsentLetter("phone", l, 'o');
    BadgePriority("Shipping");
  }

  /** The badge behind one data-class entry; a label that is not a string has no
      badge (`toLowerCase` would throw on it). */
  function BadgeFor(v: Value): Option<Badge> {
    if v.Str? then Some(BadgeColor(v.s)) else None
  }

  /** The badges under one leak: one per data class when `dataClasses` is a
      non-empty list, none otherwise. */
  function Badges(l: Value): (r: seq<Option<Badge>>)
    ensures var dc := Get(l, "dataClasses");
            if dc.Arr? then |r| == |dc.items| && forall i :: 0 <= i < |r| ==> r[i] == BadgeFor(dc.items[i])
            else r == []
  {
    var dc := Get(l, "dataClasses");
    if dc.Arr? && HasEntries(dc) then seq(|dc.items|, i requires 0 <= i < |dc.items| => BadgeFor(dc.items[i]))
    else []
  }

  /** What one list item shows. */
  datatype LeakLine = LeakLine(name: Value, domain: Value, date: Value, badges: seq<Option<Badge>>)

  function CardLine(l: Value): LeakLine {
    LeakLine(Or(Get(l, "name"), Str("Unknown Source")), Or(Get(l, "domain"), Str("unknown.com")),
             Or(Get(l, "date"), Str("Date Unknown")), Badges(l))
  }

  /** `leaks.slice(0, 5).map(...)` */
  function DisplayedLeaks(leaks: seq<Value>): (lines: seq<LeakLine>)
    ensures |lines| <= 5
  {
    var k := if |leaks| < 5 then |leaks| else 5;
    seq(k, i requires 0 <= i < k => CardLine(leaks[i]))
  }

  /** The list shows the first five leaks (or all, when fewer), in order, and every
      shown field is the leak's own value when truthy and its default otherwise. */
  lemma DisplayedLeaksAreFirstFive(leaks: seq<Value>, i: int)
    ensures |DisplayedLeaks(leaks)| == if |leaks| < 5 then |leaks| else 5
    ensures 0 <= i < |DisplayedLeaks(leaks)| ==>
              var l := leaks[i];
              var line := DisplayedLeaks(leaks)[i];
              && line.name == (if Truthy(Get(l, "name")) then Get(l, "name") else Str("Unknown Source"))
              && line.domain == (if Truthy(Get(l, "domain")) then Get(l, "domain") else Str("unknown.com"))
              && line.date == (if Truthy(Get(l, "date")) then Get(l, "date") else Str("Date Unknown"))
              && line.badges == Badges(l)
  {
  }

  /** `leaks?.length ? <button> : null` */
  predicate ToggleShown(leaks: Value) {
    HasEntries(leaks)
  }

  /** `open && leaks && leaks.length > 0` */
  predicate Visible(open: bool, leaks: Value) {
    open && Truthy(leaks) && HasEntries(leaks)
  }

  /** The details show exactly when the card is open and the toggle is on screen,
      so a card without leaks never shows details, whatever its flag says. */
  lemma VisibleIff(open: bool, leaks: Value)
    ensures Visible(open, leaks) <==> open && ToggleShown(leaks)
  {
  }

  class Card {
    const leaks: Value
    var open: bool

    /** A card starts folded. */
    constructor (leaks: Value)
      ensures this.leaks == leaks && !open
    {
      this.leaks := leaks;
      open := false;
    }

    predicate DetailsVisible()
      reads this
    {
      Visible(open, leaks)
    }

    /** `onClick={() => setOpen(!open)}`; without leaks there is no button, so
        nothing can be clicked and the flag stays as it was. */
    method Click()
      modifies this`open
      ensures open == if ToggleShown(leaks) then !old(open) else old(open)
      ensures DetailsVisible() == (ToggleShown(leaks) && !old(open))
    {
      if ToggleShown(leaks) {
        open := !open;
      }
    }
  }
}
