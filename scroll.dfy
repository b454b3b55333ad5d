/**
  The scrolling logic of the default front end: a cursor in a list of `length` items and
  the offset of a view showing at most `max_view_size` of them.

  `ScrollState` and its functions say what each method does to the four fields; the
  class `Scroll` is the mutable struct, and each method is proved to act as its function.
  The fields are `i32` in the source; here they are unbounded integers.
*/
module ScrollLogic {

  datatype ScrollState = ScrollState(length: int, maxViewSize: int, cursor: int, scroll: int)

  /** `view_size`: the number of items that fit in the view. */
  function ViewSize(s: ScrollState): (v: int)
    ensures v <= s.length && v <= s.maxViewSize
    ensures v == s.length || v == s.maxViewSize
  {
    if s.length < s.maxViewSize then s.length else s.maxViewSize
  }

  /**
    The cursor is an item, the view is inside the list and the cursor is in the view. It
    can hold only for a list with at least one item and a view of at least one row.
  */
  predicate Valid(s: ScrollState)
  {
    1 <= s.length && 1 <= s.maxViewSize
    && 0 <= s.scroll <= s.cursor < s.scroll + ViewSize(s)
    && s.cursor < s.length
    && s.scroll <= s.length - ViewSize(s)
  }

  /** `new`. */
  function NewState(length: int, maxViewSize: int): ScrollState
  {
    ScrollState(length, maxViewSize, 0, 0)
  }

  /** `top`. */
  function Top(s: ScrollState): ScrollState
  {
    s.(cursor := 0, scroll := 0)
  }

  /** `bottom`. */
  function Bottom(s: ScrollState): ScrollState
  {
    s.(cursor := s.length - 1, scroll := s.length - ViewSize(s))
  }

  /** `cursor_up`. */
  function CursorUp(s: ScrollState): ScrollState
  {
    if s.cursor <= 0 then Bottom(s)
    else
      var cursor := s.cursor - 1;
      s.(cursor := cursor, scroll := if s.scroll < cursor then s.scroll else cursor)
  }

  /** `cursor_down`. */
  function CursorDown(s: ScrollState): ScrollState
  {
    if s.cursor >= s.length - 1 then Top(s)
    else
      var cursor := s.cursor + 1;
      var low := cursor - ViewSize(s) + 1;
      s.(cursor := cursor, scroll := if s.scroll > low then s.scroll else low)
  }

  /** `page_up`. */
  function PageUp(s: ScrollState): ScrollState
  {
    if s.scroll - ViewSize(s) <= 0 then Top(s)
    else
      var scroll := s.scroll - ViewSize(s);
      s.(scroll := scroll, cursor := scroll)
  }

  /** `page_down`. */
  function PageDown(s: ScrollState): ScrollState
  {
    if s.scroll + ViewSize(s) * 2 >= s.length then Bottom(s)
    else
      var scroll := s.scroll + ViewSize(s);
      s.(scroll := scroll, cursor := scroll + ViewSize(s) - 1)
  }

  /** `set_length`. */
  function SetLength(s: ScrollState, length: int): ScrollState
  {
    s.(length := length, cursor := 0, scroll := 0)
  }

  /** A fresh state and a state with a non-empty length set are valid; the view is the smaller of list and limit. */
  lemma NewValid(length: int, maxViewSize: int, s: ScrollState, newLength: int)
    requires 1 <= length && 1 <= maxViewSize
    requires Valid(s) && 1 <= newLength
    ensures Valid(NewState(length, maxViewSize))
    ensures ViewSize(NewState(length, maxViewSize)) == if length < maxViewSize then length else maxViewSize
    ensures Valid(SetLength(s, newLength))
    ensures SetLength(s, newLength).length == newLength
    ensures SetLength(s, newLength).cursor == 0 && SetLength(s, newLength).scroll == 0
  {
  }

  /** Every movement keeps the state valid and leaves the length and the view limit alone. */
  lemma MovesPreserveValid(s: ScrollState)
    requires Valid(s)
    ensures Valid(Top(s)) && Valid(Bottom(s))
    ensures Valid(CursorUp(s)) && Valid(CursorDown(s))
    ensures Valid(PageUp(s)) && Valid(PageDown(s))
    ensures CursorUp(s).length == CursorDown(s).length == PageUp(s).length == PageDown(s).length == s.length
    ensures CursorUp(s).maxViewSize == CursorDown(s).maxViewSize == PageUp(s).maxViewSize == PageDown(s).maxViewSize == s.maxViewSize
  {
  }

  /** Moving the cursor wraps around at both ends and otherwise moves it by one item. */
  lemma CursorMovesByOne(s: ScrollState)
    requires Valid(s)
    ensures CursorDown(s).cursor == if s.cursor == s.length - 1 then 0 else s.cursor + 1
    ensures CursorUp(s).cursor == if s.cursor == 0 then s.length - 1 else s.cursor - 1
  {
  }

  /** Up undoes down and down undoes up, for the cursor, including the wrap-arounds. */
  lemma UpDownInverse(s: ScrollState)
    requires Valid(s)
    ensures CursorUp(CursorDown(s)).cursor == s.cursor
    ensures CursorDown(CursorUp(s)).cursor == s.cursor
  {
    MovesPreserveValid(s);
    CursorMovesByOne(s);
    CursorMovesByOne(CursorDown(s));
    CursorMovesByOne(CursorUp(s));
  }

  /**
    A page down moves the view by one page with the cursor on its last row, unless less
    than two pages remain, when it goes to the bottom; a page up moves back by one page
    with the cursor on the first row, or goes to the top.
  */
  lemma Paging(s: ScrollState)
    requires Valid(s)
    ensures s.scroll + 2 * ViewSize(s) < s.length
        ==> PageDown(s).scroll == s.scroll + ViewSize(s) && PageDown(s).cursor == PageDown(s).scroll + ViewSize(s) - 1
    ensures s.scroll + 2 * ViewSize(s) >= s.length ==> PageDown(s) == Bottom(s)
    ensures s.scroll - ViewSize(s) > 0
        ==> PageUp(s).scroll == s.scroll - ViewSize(s) && PageUp(s).cursor == PageUp(s).scroll
    ensures s.scroll - ViewSize(s) <= 0 ==> PageUp(s) == Top(s)
  {
  }

  /** On an empty list `bottom` and `cursor_up` put the cursor at -1: the invariant needs an item. */
  lemma EmptyListCursor(s: ScrollState)
    requires s.length == 0 && 1 <= s.maxViewSize
    ensures Bottom(s).cursor == -1 && !Valid(Bottom(s))
    ensures s.cursor <= 0 ==> CursorUp(s).cursor == -1
  {
  }
}

/** The mutable `Scroll` struct, each method proved to act as its `ScrollLogic` function. */
module Scrolling {
  import Logic = ScrollLogic

  /** `Scroll`. */
  class Scroll {
    var length: int
    var maxViewSize: int
    var cursor: int
    var scroll: int

    /** The four fields as a value. */
    function State(): Logic.ScrollState
      reads this
    {
      Logic.ScrollState(length, maxViewSize, cursor, scroll)
    }

    /** `Scroll::new`: cursor and view at the top. */
    constructor (length: int, maxViewSize: int)
      ensures State() == Logic.NewState(length, maxViewSize)
    {
      this.length := length;
      this.maxViewSize := maxViewSize;
      cursor := 0;
      scroll := 0;
    }

    /** `view_size`. */
    function ViewSizeOf(): (v: int)
      reads this
      ensures v == Logic.ViewSize(State())
    {
      if length < maxViewSize then length else maxViewSize
    }

    method Top()
      modifies this
      ensures State() == Logic.Top(old(State()))
      ensures old(Logic.Valid(State())) ==> Logic.Valid(State())
    {
      if Logic.Valid(State()) {
        Logic.MovesPreserveValid(State());
      }
      cursor := 0;
      scroll := 0;
    }

    method Bottom()
      modifies this
      ensures State() == Logic.Bottom(old(State()))
      ensures old(Logic.Valid(State())) ==> Logic.Valid(State())
    {
      if Logic.Valid(State()) {
        Logic.MovesPreserveValid(State());
      }
      cursor := length - 1;
      scroll := length - ViewSizeOf();
    }

    method CursorUp()
      modifies this
      ensures State() == Logic.CursorUp(old(State()))
      ensures old(Logic.Valid(State())) ==> Logic.Valid(State())
    {
      if Logic.Valid(State()) {
        Logic.MovesPreserveValid(State());
      }
      if cursor <= 0 {
        Bottom();
      } else {
        cursor := cursor - 1;
        scroll := if scroll < cursor then scroll else cursor;
      }
    }

    method CursorDown()
      modifies this
      ensures State() == Logic.CursorDown(old(State()))
      ensures old(Logic.Valid(State())) ==> Logic.Valid(State())
    {
      if Logic.Valid(State()) {
        Logic.MovesPreserveValid(State());
      }
      if cursor >= length - 1 {
        Top();
      } else {
        cursor := cursor + 1;
        var low := cursor - ViewSizeOf() + 1;
        scroll := if scroll > low then scroll else low;
      }
    }

    method PageUp()
      modifies this
      ensures State() == Logic.PageUp(old(State()))
      ensures old(Logic.Valid(State())) ==> Logic.Valid(State())
    {
      if Logic.Valid(State()) {
        Logic.MovesPreserveValid(State());
      }
      if scroll - ViewSizeOf() <= 0 {
        Top();
      } else {
        scroll := scroll - ViewSizeOf();
        cursor := scroll;
      }
    }

    method PageDown()
      modifies this
      ensures State() == Logic.PageDown(old(State()))
      ensures old(Logic.Valid(State())) ==> Logic.Valid(State())
    {
      if Logic.Valid(State()) {
        Logic.MovesPreserveValid(State());
      }
      if scroll + ViewSizeOf() * 2 >= length {
        Bottom();
      } else {
        scroll := scroll + ViewSizeOf();
        cursor := scroll + ViewSizeOf() - 1;
      }
    }

    method SetLength(length: int)
      modifies this
      ensures State() == Logic.SetLength(old(State()), length)
    {
      this.length := length;
      cursor := 0;
      scroll := 0;
    }
  }
}
