/** Per-sticker ownership and geometry rules of the photo-editing room
    (EditPhotoRoomFeature/Source/View/StickerView.swift): dragging, resizing, adopting remote
    snapshots, and the owner-dependent buttons and drag gesture. Layout, colours and image
    loading are left out. */
module Sticker {
  import opened Common

  datatype Point = Point(x: real, y: real)
  datatype Size = Size(width: real, height: real)

  /** `CGRect`: an origin and a size. */
  datatype Rect = Rect(origin: Point, size: Size)

  /** A participant; compared by value. */
  datatype UserInfo = UserInfo(id: string, nickname: string)

  /** `StickerEntity`: identity, image URL, frame and optional owner. */
  datatype StickerEntity = StickerEntity(id: string, image: string, frame: Rect, owner: Option<UserInfo>)

  /** `UIGestureRecognizer.State`. */
  datatype GestureState = Possible | Began | Changed | Ended | Cancelled | Failed

  /** The calls made on the view's delegate, each with the sticker as it is at that moment. */
  datatype Notification =
    | DidTap(tapped: string)
    | DidTapDelete(deleted: string)
    | WillBeginDragging(sticker: StickerEntity)
    | DidDrag(sticker: StickerEntity)
    | DidEndDrag(sticker: StickerEntity)
    | WillBeginResizing(sticker: StickerEntity)
    | DidResize(sticker: StickerEntity)
    | DidEndResize(sticker: StickerEntity)

  /** A button's `isHidden` and `isUserInteractionEnabled`. */
  datatype ButtonState = ButtonState(hidden: bool, interactive: bool)

  /** The owner badge: the nickname label's text and whether the border layer and the label are
      hidden. */
  datatype OwnerBadge = OwnerBadge(nickname: Option<string>, layerHidden: bool, nicknameHidden: bool)

  /** Everything the view shows for an owner. */
  datatype OwnerUI = OwnerUI(badge: OwnerBadge, deleteButton: ButtonState, resizeButton: ButtonState)

  /** A store into the view's sticker, in the order the view makes them. */
  datatype Write = FrameWrite(frame: Rect) | OwnerWrite(owner: Option<UserInfo>)

  /** The state of one sticker view: its sticker, its own `frame`, the drag recognizer's state
      and `isEnabled`, the owner UI, the delegate calls made so far, and the stores made into
      the sticker so far. */
  datatype ViewState = ViewState(
    sticker: StickerEntity,
    viewFrame: Rect,
    dragState: GestureState,
    ownerUI: OwnerUI,
    dragEnabled: bool,
    notifications: seq<Notification>,
    writes: seq<Write>)

  /** The bounds of a sticker's side while resizing. */
  const MinSide: real := 48.0
  const MaxSide: real := 128.0

  // ---------------------------------------------------------------------------------------
  // Ownership rules

  /** `updateDeleteButtonVisibility` / `updateResizeButtonVisibility`: a button is shown and
      usable exactly when the local user owns the sticker (where "no local user" owns exactly
      the unowned stickers). */
  function ButtonFor(owner: Option<UserInfo>, user: Option<UserInfo>): (b: ButtonState)
    ensures !b.hidden <==> owner == user
    ensures b.interactive <==> owner == user
  {
    var isOwner := owner == user;
    ButtonState(hidden := !isOwner, interactive := isOwner)
  }

  /** The visible half of `updateOwnerUI`: an owned sticker shows its owner's nickname and the
      border; an unowned one shows neither. */
  function BadgeFor(owner: Option<UserInfo>): (b: OwnerBadge)
    ensures b.layerHidden <==> owner.None?
    ensures b.nicknameHidden <==> owner.None?
    ensures owner.Some? ==> b.nickname == Some(owner.value.nickname)
    ensures owner.None? ==> b.nickname.None?
  {
    match owner
    case Some(o) => OwnerBadge(Some(o.nickname), false, false)
    case None => OwnerBadge(None, true, true)
  }

  function OwnerUIFor(owner: Option<UserInfo>, user: Option<UserInfo>): OwnerUI
  {
    OwnerUI(BadgeFor(owner), ButtonFor(owner, user), ButtonFor(owner, user))
  }

  /** `updatePanGestureState`: dragging is enabled exactly when the local user owns the sticker
      or nobody does. */
  predicate DragAllowed(owner: Option<UserInfo>, user: Option<UserInfo>)
  {
    owner == user || owner == None
  }

  /** The view's own frame follows the sticker's, and the drag recognizer is enabled exactly as
      the ownership rule says. */
  predicate Consistent(v: ViewState, user: Option<UserInfo>)
  {
    v.viewFrame == v.sticker.frame && v.dragEnabled == DragAllowed(v.sticker.owner, user)
  }

  /** The owner UI shows the sticker's actual owner: its badge, and the buttons exactly when the
      local user owns it. Sharing suspends this between PrepareShare and FinishShare. */
  predicate UIDrawn(v: ViewState, user: Option<UserInfo>)
  {
    v.ownerUI == OwnerUIFor(v.sticker.owner, user)
  }

  /** Whoever may resize or delete a sticker may also drag it. */
  lemma ButtonsImplyDrag(owner: Option<UserInfo>, user: Option<UserInfo>)
    ensures ButtonFor(owner, user).interactive ==> DragAllowed(owner, user)
    ensures DragAllowed(owner, user) && !ButtonFor(owner, user).interactive ==> owner == None && user != None
  {
  }

  // ---------------------------------------------------------------------------------------
  // Geometry

  /** The frame a drag step asks for: the origin moved by exactly the step's translation, the
      size kept. */
  function Moved(f: Rect, t: Point): (r: Rect)
    ensures r.origin.x - f.origin.x == t.x && r.origin.y - f.origin.y == t.y
    ensures r.size == f.size
  {
    var changedX := f.origin.x + t.x;
    var changedY := f.origin.y + t.y;
    Rect(Point(changedX, changedY), f.size)
  }

  function Min(a: real, b: real): real { if a <= b then a else b }
  function Max(a: real, b: real): real { if a >= b then a else b }

  /** The frame a resize step asks for: a square at the same origin whose side is the current
      width grown by the smaller of the two translation components, clamped to
      [MinSide, MaxSide]. */
  function Resized(f: Rect, t: Point): (r: Rect)
    ensures r.origin == f.origin
    ensures r.size.width == r.size.height
    ensures MinSide <= r.size.width <= MaxSide
    ensures var wanted := f.size.width + Min(t.x, t.y);
            && (MinSide <= wanted <= MaxSide ==> r.size.width == wanted)
            && (wanted < MinSide ==> r.size.width == MinSide)
            && (wanted > MaxSide ==> r.size.width == MaxSide)
  {
    var delta := Min(t.x, t.y);
    var changedWidth := Min(MaxSide, Max(f.size.width + delta, MinSide));
    Rect(f.origin, Size(changedWidth, changedWidth))
  }

  // ---------------------------------------------------------------------------------------
  // What each entry point does to the view

  /** `updateFrame(to:)`: nothing at all when the frame is already `f`; otherwise the sticker's
      frame and then the view's frame become `f`. */
  function SetFrame(v: ViewState, f: Rect): (r: ViewState)
    ensures v.sticker.frame == f ==> r == v
    ensures r.sticker == v.sticker.(frame := f)
    ensures v.sticker.frame != f ==> r.viewFrame == f && r.writes == v.writes + [FrameWrite(f)]
    ensures r.dragState == v.dragState && r.ownerUI == v.ownerUI && r.dragEnabled == v.dragEnabled
    ensures r.notifications == v.notifications
    ensures v.viewFrame == v.sticker.frame ==> r.viewFrame == r.sticker.frame
  {
    if v.sticker.frame == f then v
    else v.(sticker := v.sticker.(frame := f), writes := v.writes + [FrameWrite(f)], viewFrame := f)
  }

  /** `updateOwner(to:)`: nothing at all when the owner is already `o`; otherwise the sticker's
      owner becomes `o`, the owner UI is redrawn for `o`, and the drag recognizer is enabled by
      the ownership rule. */
  function SetOwner(v: ViewState, o: Option<UserInfo>, user: Option<UserInfo>): (r: ViewState)
    ensures v.sticker.owner == o ==> r == v
    ensures r.sticker == v.sticker.(owner := o)
    ensures v.sticker.owner != o ==> && r.ownerUI == OwnerUIFor(o, user)
                                     && r.dragEnabled == DragAllowed(o, user)
                                     && r.writes == v.writes + [OwnerWrite(o)]
    ensures r.viewFrame == v.viewFrame && r.dragState == v.dragState && r.notifications == v.notifications
    ensures Consistent(v, user) ==> Consistent(r, user)
    ensures UIDrawn(v, user) ==> UIDrawn(r, user)
  {
    if v.sticker.owner == o then v
    else
      var owned := v.(sticker := v.sticker.(owner := o), writes := v.writes + [OwnerWrite(o)]);
      owned.(ownerUI := OwnerUIFor(o, user), dragEnabled := DragAllowed(owned.sticker.owner, user))
  }

  /** The store `w` when `c` holds, and no store otherwise. */
  function WriteIf(c: bool, w: Write): seq<Write>
  {
    if c then [w] else []
  }

  /** `handleDragPanGesture`, with the recognizer in `state` and `t` the translation since the
      previous step (the handler resets the recognizer's translation each time). It only runs
      while the recognizer is enabled. Began and Changed move the origin by exactly `t` and keep
      the size; Began also claims the sticker for the local user, storing the frame before the
      owner; Ended only notifies. */
  function DragPan(v: ViewState, user: Option<UserInfo>, state: GestureState, t: Point): (r: ViewState)
    requires v.dragEnabled
    ensures r.dragState == state && r.dragEnabled
    ensures state == Began ==>
              var moved := Moved(v.sticker.frame, t);
              && r.sticker == v.sticker.(frame := moved, owner := user)
              && r.writes == v.writes + WriteIf(moved != v.sticker.frame, FrameWrite(moved))
                                      + WriteIf(v.sticker.owner != user, OwnerWrite(user))
              && r.notifications == v.notifications + [WillBeginDragging(r.sticker)]
              && r.ownerUI == if v.sticker.owner != user then OwnerUIFor(user, user) else v.ownerUI
    ensures state == Changed ==>
              && r.sticker == v.sticker.(frame := Moved(v.sticker.frame, t))
              && r.notifications == v.notifications + [DidDrag(r.sticker)]
              && r.ownerUI == v.ownerUI
    ensures state == Ended ==> r == v.(dragState := Ended, notifications := v.notifications + [DidEndDrag(v.sticker)])
    ensures state !in {Began, Changed, Ended} ==> r == v.(dragState := state)
    ensures Consistent(v, user) ==> Consistent(r, user)
    ensures UIDrawn(v, user) ==> UIDrawn(r, user)
  {
    var initialPoint := v.sticker.frame.origin;
    var newFrame := Rect(Point(initialPoint.x + t.x, initialPoint.y + t.y), v.sticker.frame.size);
    var recognized := v.(dragState := state);
    match state
    case Began =>
      var claimed := SetOwner(SetFrame(recognized, newFrame), user, user);
      claimed.(notifications := claimed.notifications + [WillBeginDragging(claimed.sticker)])
    case Changed =>
      var moved := SetFrame(recognized, newFrame);
      moved.(notifications := moved.notifications + [DidDrag(moved.sticker)])
    case Ended =>
      recognized.(notifications := recognized.notifications + [DidEndDrag(recognized.sticker)])
    case _ => recognized
  }

  /** `handleResizePanGesture`, with its own recognizer in `state` and `t` the translation since
      the previous step. Began and Changed make the sticker a square of side clamped to
      [MinSide, MaxSide] at the same origin; Ended only notifies. Ownership is not touched. */
  function ResizePan(v: ViewState, state: GestureState, t: Point): (r: ViewState)
    ensures r.sticker.owner == v.sticker.owner && r.sticker.frame.origin == v.sticker.frame.origin
    ensures r.dragState == v.dragState && r.dragEnabled == v.dragEnabled && r.ownerUI == v.ownerUI
    ensures state == Began || state == Changed ==>
              && r.sticker == v.sticker.(frame := Resized(v.sticker.frame, t))
              && r.sticker.frame.size.width == r.sticker.frame.size.height
              && MinSide <= r.sticker.frame.size.width <= MaxSide
    ensures state == Began ==> r.notifications == v.notifications + [WillBeginResizing(r.sticker)]
    ensures state == Changed ==> r.notifications == v.notifications + [DidResize(r.sticker)]
    ensures state == Ended ==> r == v.(notifications := v.notifications + [DidEndResize(v.sticker)])
    ensures state !in {Began, Changed, Ended} ==> r == v
    ensures v.viewFrame == v.sticker.frame ==> r.viewFrame == r.sticker.frame
  {
    var initialSize := v.sticker.frame.size;
    var delta := Min(t.x, t.y);
    var changedWidth := Min(MaxSide, Max(initialSize.width + delta, MinSide));
    var newFrame := Rect(v.sticker.frame.origin, Size(changedWidth, changedWidth));
    match state
    case Began =>
      var resized := SetFrame(v, newFrame);
      resized.(notifications := resized.notifications + [WillBeginResizing(resized.sticker)])
    case Changed =>
      var resized := SetFrame(v, newFrame);
      resized.(notifications := resized.notifications + [DidResize(resized.sticker)])
    case Ended =>
      v.(notifications := v.notifications + [DidEndResize(v.sticker)])
    case _ => v
  }

  /** True while a local drag is in progress. */
  predicate Dragging(v: ViewState)
  {
    v.dragState == Began || v.dragState == Changed
  }

  /** `update(with:)`, for a snapshot `remote` received from another participant. While a local
      drag is in progress it changes nothing. Otherwise the remote owner is adopted, and the
      remote frame too unless the remote owner is the local user, whose own frame is kept. */
  function Update(v: ViewState, user: Option<UserInfo>, remote: StickerEntity): (r: ViewState)
    ensures Dragging(v) ==> r == v
    ensures !Dragging(v) ==> r.sticker.owner == remote.owner
    ensures !Dragging(v) ==> r.sticker.frame == if remote.owner != user then remote.frame else v.sticker.frame
    ensures r.sticker.id == v.sticker.id && r.sticker.image == v.sticker.image
    ensures !Dragging(v) ==> r.ownerUI == if v.sticker.owner != remote.owner then OwnerUIFor(remote.owner, user) else v.ownerUI
    ensures r.dragState == v.dragState && r.notifications == v.notifications
    ensures Consistent(v, user) ==> Consistent(r, user)
    ensures UIDrawn(v, user) ==> UIDrawn(r, user)
  {
    if Dragging(v) then v
    else
      var adopted := SetOwner(v, remote.owner, user);
      if remote.owner != user then SetFrame(adopted, remote.frame) else adopted
  }

  /** `prepareSharePhoto()`: draws the owner UI as if the sticker were unowned, without touching
      the sticker; nothing at all for an unowned sticker. */
  function PrepareShare(v: ViewState, user: Option<UserInfo>): (r: ViewState)
    ensures r == v.(ownerUI := r.ownerUI)
    ensures v.sticker.owner.None? ==> r == v
    ensures v.sticker.owner.Some? ==> r.ownerUI == OwnerUIFor(None, user)
  {
    if v.sticker.owner.None? then v
    else v.(ownerUI := OwnerUI(BadgeFor(None), ButtonFor(None, user), ButtonFor(None, user)))
  }

  /** `finishSharePhoto()`: draws the owner UI for the actual owner again, without touching the
      sticker; nothing at all for an unowned sticker. */
  function FinishShare(v: ViewState, user: Option<UserInfo>): (r: ViewState)
    ensures r == v.(ownerUI := r.ownerUI)
    ensures v.sticker.owner.None? ==> r == v
    ensures v.sticker.owner.Some? ==> r.ownerUI == OwnerUIFor(v.sticker.owner, user)
  {
    if v.sticker.owner.None? then v
    else v.(ownerUI := OwnerUI(BadgeFor(v.sticker.owner), ButtonFor(v.sticker.owner, user), ButtonFor(v.sticker.owner, user)))
  }

  /** The view just after `init(sticker:user:)`, corrected so that the drag recognizer starts
      out enabled by the ownership rule (see InitAsWritten). */
  function Init(sticker: StickerEntity, user: Option<UserInfo>): (v: ViewState)
    ensures Consistent(v, user)
    ensures v.sticker == sticker && v.ownerUI == OwnerUIFor(sticker.owner, user) && !Dragging(v)
    ensures v.notifications == [] && v.writes == []
  {
    ViewState(sticker, sticker.frame, Possible, OwnerUIFor(sticker.owner, user),
              DragAllowed(sticker.owner, user), [], [])
  }

  /** The view just after `init(sticker:user:)` as written: `configureUI` draws the owner UI but
      never calls `updatePanGestureState`, so the recognizer keeps its default `isEnabled`. */
  function InitAsWritten(sticker: StickerEntity, user: Option<UserInfo>): (v: ViewState)
    ensures v == Init(sticker, user).(dragEnabled := true)
  {
    ViewState(sticker, sticker.frame, Possible, OwnerUIFor(sticker.owner, user), true, [], [])
  }

  // ---------------------------------------------------------------------------------------
  // Properties over several steps

  /** Storing the same frame or the same owner twice is the same as storing it once. */
  lemma SetFrameIdempotent(v: ViewState, f: Rect)
    ensures SetFrame(SetFrame(v, f), f) == SetFrame(v, f)
  {
  }

  lemma SetOwnerIdempotent(v: ViewState, o: Option<UserInfo>, user: Option<UserInfo>)
    ensures SetOwner(SetOwner(v, o, user), o, user) == SetOwner(v, o, user)
  {
  }

  /** Adopting the same remote snapshot twice is the same as adopting it once. */
  lemma UpdateIdempotent(v: ViewState, user: Option<UserInfo>, remote: StickerEntity)
    ensures Update(Update(v, user, remote), user, remote) == Update(v, user, remote)
  {
  }

  /** Sharing is transparent for a view whose owner UI is drawn for its owner: preparing and then
      finishing restores the view exactly. */
  lemma ShareRoundTrip(v: ViewState, user: Option<UserInfo>)
    requires v.ownerUI == OwnerUIFor(v.sticker.owner, user)
    ensures FinishShare(PrepareShare(v, user), user) == v
  {
  }

  /** With the recognizer enabled by the ownership rule, a drag never takes a sticker owned by
      another participant: when it changes the owner, the sticker was unowned. */
  lemma DragNeverStealsOwnership(v: ViewState, user: Option<UserInfo>, state: GestureState, t: Point)
    requires Consistent(v, user) && v.dragEnabled
    ensures DragPan(v, user, state, t).sticker.owner != v.sticker.owner ==> v.sticker.owner.None? && state == Began
  {
  }

  /** The corrected initial view keeps a sticker owned by someone else out of reach of a drag. */
  lemma InitDisablesForeignDrag(sticker: StickerEntity, me: UserInfo, other: UserInfo)
    requires sticker.owner == Some(other) && other != me
    ensures !Init(sticker, Some(me)).dragEnabled
  {
  }

  /** As written, the initial view lets the local user drag a sticker owned by someone else and
      so claim it at the first drag step. */
  lemma AsWrittenDragStealsOwnership(sticker: StickerEntity, me: UserInfo, other: UserInfo, t: Point)
    requires sticker.owner == Some(other) && other != me
    ensures InitAsWritten(sticker, Some(me)).dragEnabled
    ensures !Consistent(InitAsWritten(sticker, Some(me)), Some(me))
    ensures DragPan(InitAsWritten(sticker, Some(me)), Some(me), Began, t).sticker.owner == Some(me)
  {
  }

  function SumX(ts: seq<Point>): real
  {
    if ts == [] then 0.0 else ts[0].x + SumX(ts[1..])
  }

  function SumY(ts: seq<Point>): real
  {
    if ts == [] then 0.0 else ts[0].y + SumY(ts[1..])
  }

  /** Drag steps in the Changed state with translations `ts`, in order. */
  function DragChanges(v: ViewState, user: Option<UserInfo>, ts: seq<Point>): (r: ViewState)
    requires v.dragEnabled
    ensures r.dragEnabled
    decreases |ts|
  {
    if ts == [] then v else DragChanges(DragPan(v, user, Changed, ts[0]), user, ts[1..])
  }

  /** Because each step's translation is measured from the previous step, a run of drag steps
      moves the sticker by the sum of their translations, keeps its size and owner, and makes
      one DidDrag call per step. */
  lemma {:induction false} DragChangesAccumulate(v: ViewState, user: Option<UserInfo>, ts: seq<Point>)
    requires v.dragEnabled
    ensures var r := DragChanges(v, user, ts);
            && r.sticker.frame.origin == Point(v.sticker.frame.origin.x + SumX(ts), v.sticker.frame.origin.y + SumY(ts))
            && r.sticker.frame.size == v.sticker.frame.size
            && r.sticker.owner == v.sticker.owner && r.sticker.id == v.sticker.id
            && |r.notifications| == |v.notifications| + |ts|
    decreases |ts|
  {
    if ts != [] {
      DragChangesAccumulate(DragPan(v, user, Changed, ts[0]), user, ts[1..]);
    }
  }

  /** A whole drag gesture, Began with `t0`, Changed with each of `ts`, then Ended: the local user
      owns the sticker afterwards, and its origin has moved by the total translation. */
  lemma DragGesture(v: ViewState, user: Option<UserInfo>, t0: Point, ts: seq<Point>, tEnd: Point)
    requires v.dragEnabled
    ensures var began := DragPan(v, user, Began, t0);
            var r := DragPan(DragChanges(began, user, ts), user, Ended, tEnd);
            && r.sticker.owner == user
            && r.sticker.frame.origin == Point(v.sticker.frame.origin.x + t0.x + SumX(ts),
                                               v.sticker.frame.origin.y + t0.y + SumY(ts))
            && r.sticker.frame.size == v.sticker.frame.size
            && r.dragState == Ended
  {
    var began := DragPan(v, user, Began, t0);
    DragChangesAccumulate(began, user, ts);
  }

  /** A frame the resize rules can produce: a square within the bounds. */
  predicate SquareInBounds(f: Rect)
  {
    f.size.width == f.size.height && MinSide <= f.size.width <= MaxSide
  }

  /** The snapshot guard looks only at the drag recognizer: a remote snapshot arriving during a
      local resize is applied, and replaces the frame being resized. */
  lemma ResizeDoesNotDeferSnapshots(v: ViewState, user: Option<UserInfo>, t: Point, remote: StickerEntity)
    requires !Dragging(v) && remote.owner != user
    ensures Update(ResizePan(v, Began, t), user, remote).sticker.frame == remote.frame
  {
  }

  /** Resize steps in the Changed state with translations `ts`, in order. */
  function ResizeChanges(v: ViewState, ts: seq<Point>): ViewState
    decreases |ts|
  {
    if ts == [] then v else ResizeChanges(ResizePan(v, Changed, ts[0]), ts[1..])
  }

  /** However many resize steps follow, the sticker stays a square within the bounds at the
      same origin, with the same owner. */
  lemma {:induction false} ResizeChangesStaySquare(v: ViewState, ts: seq<Point>)
    requires SquareInBounds(v.sticker.frame) || ts != []
    ensures SquareInBounds(ResizeChanges(v, ts).sticker.frame)
    ensures ResizeChanges(v, ts).sticker.frame.origin == v.sticker.frame.origin
    ensures ResizeChanges(v, ts).sticker.owner == v.sticker.owner
    decreases |ts|
  {
    if ts != [] {
      ResizeChangesStaySquare(ResizePan(v, Changed, ts[0]), ts[1..]);
    }
  }

  // ---------------------------------------------------------------------------------------
  // The view object

  /** `StickerView`, with the fields its entry points read or change. */
  class StickerView {
    const user: Option<UserInfo>
    var sticker: StickerEntity
    var viewFrame: Rect
    var dragState: GestureState
    var ownerUI: OwnerUI
    var dragEnabled: bool
    var notifications: seq<Notification>
    ghost var writes: seq<Write>

    /** The view as a value. */
    ghost function View(): ViewState
      reads this
    {
      ViewState(sticker, viewFrame, dragState, ownerUI, dragEnabled, notifications, writes)
    }

    ghost predicate Valid()
      reads this
    {
      Consistent(View(), user)
    }

    /** `init(sticker:user:)`, with the drag recognizer enabled by the ownership rule. */
    constructor (sticker: StickerEntity, user: Option<UserInfo>)
      ensures this.user == user && View() == Init(sticker, user) && Valid()
    {
      this.sticker := sticker;
      this.user := user;
      viewFrame := sticker.frame;
      dragState := Possible;
      notifications, writes := [], [];
      new;
      ownerUI := OwnerUI(BadgeFor(sticker.owner), ButtonFor(sticker.owner, user), ButtonFor(sticker.owner, user));
      UpdatePanGestureState();
    }

    /** `init(sticker:user:)` as written: the recognizer keeps its default, enabled. */
    constructor AsWritten(sticker: StickerEntity, user: Option<UserInfo>)
      ensures this.user == user && View() == InitAsWritten(sticker, user)
    {
      this.sticker := sticker;
      this.user := user;
      viewFrame := sticker.frame;
      dragState := Possible;
      dragEnabled := true;
      notifications, writes := [], [];
      ownerUI := OwnerUI(BadgeFor(sticker.owner), ButtonFor(sticker.owner, user), ButtonFor(sticker.owner, user));
    }

    /** `updatePanGestureState()`. */
    method UpdatePanGestureState()
      modifies this`dragEnabled
      ensures dragEnabled == DragAllowed(sticker.owner, user)
    {
      if sticker.owner == user || sticker.owner == None {
        dragEnabled := true;
      } else {
        dragEnabled := false;
      }
    }

    /** `updateFrame(to:)`. */
    method UpdateFrame(frame: Rect)
      modifies this
      ensures old(Valid()) ==> Valid()
      ensures View() == SetFrame(old(View()), frame)
    {
      if sticker.frame == frame {
        return;
      }
      sticker := sticker.(frame := frame);
      writes := writes + [FrameWrite(frame)];
      viewFrame := frame;
    }

    /** `updateOwner(to:)`. */
    method UpdateOwner(owner: Option<UserInfo>)
      modifies this
      ensures old(Valid()) ==> Valid()
      ensures View() == SetOwner(old(View()), owner, user)
    {
      if sticker.owner == owner {
        return;
      }
      sticker := sticker.(owner := owner);
      writes := writes + [OwnerWrite(owner)];
      ownerUI := OwnerUI(BadgeFor(owner), ButtonFor(owner, user), ButtonFor(owner, user));
      UpdatePanGestureState();
    }

    /** `handleDragPanGesture(_:)`: the recognizer has entered `state`, with `translation`
        accumulated since it was last reset. UIKit only calls this while it is enabled. */
    method HandleDragPanGesture(state: GestureState, translation: Point)
      requires dragEnabled
      modifies this
      ensures old(Valid()) ==> Valid()
      ensures View() == DragPan(old(View()), user, state, translation)
    {
      dragState := state;
      var initialPoint := sticker.frame.origin;
      var changedX := initialPoint.x + translation.x;
      var changedY := initialPoint.y + translation.y;
      var newFrame := Rect(Point(changedX, changedY), sticker.frame.size);
      match state
      case Began =>
        UpdateFrame(newFrame);
        UpdateOwner(user);
        notifications := notifications + [WillBeginDragging(sticker)];
      case Changed =>
        UpdateFrame(newFrame);
        notifications := notifications + [DidDrag(sticker)];
      case Ended =>
        notifications := notifications + [DidEndDrag(sticker)];
      case _ =>
    }

    /** `handleResizePanGesture(_:)`: the resize button's recognizer has entered `state`. */
    method HandleResizePanGesture(state: GestureState, translation: Point)
      modifies this
      ensures old(Valid()) ==> Valid()
      ensures View() == ResizePan(old(View()), state, translation)
    {
      var initialSize := sticker.frame.size;
      var delta := Min(translation.x, translation.y);
      var changedWidth := Min(MaxSide, Max(initialSize.width + delta, MinSide));
      var changedHeight := changedWidth;
      var newFrame := Rect(sticker.frame.origin, Size(changedWidth, changedHeight));
      match state
      case Began =>
        UpdateFrame(newFrame);
        notifications := notifications + [WillBeginResizing(sticker)];
      case Changed =>
        UpdateFrame(newFrame);
        notifications := notifications + [DidResize(sticker)];
      case Ended =>
        notifications := notifications + [DidEndResize(sticker)];
      case _ =>
    }

    /** `update(with:)`. */
    method UpdateWith(remote: StickerEntity)
      modifies this
      ensures old(Valid()) ==> Valid()
      ensures View() == Update(old(View()), user, remote)
    {
      match dragState
      case Began =>
        return;
      case Changed =>
        return;
      case _ =>
        UpdateOwner(remote.owner);
        if remote.owner != user {
          UpdateFrame(remote.frame);
        }
    }

    /** `prepareSharePhoto()`. */
    method PrepareSharePhoto()
      modifies this`ownerUI
      ensures old(Valid()) ==> Valid()
      ensures View() == PrepareShare(old(View()), user)
    {
      if sticker.owner == None {
        return;
      }
      ownerUI := OwnerUI(BadgeFor(None), ButtonFor(None, user), ButtonFor(None, user));
    }

    /** `finishSharePhoto()`. */
    method FinishSharePhoto()
      modifies this`ownerUI
      ensures old(Valid()) ==> Valid()
      ensures View() == FinishShare(old(View()), user)
    {
      if sticker.owner == None {
        return;
      }
      ownerUI := OwnerUI(BadgeFor(sticker.owner), ButtonFor(sticker.owner, user), ButtonFor(sticker.owner, user));
    }

    /** `handleTap()`. */
    method HandleTap()
      modifies this`notifications
      ensures notifications == old(notifications) + [DidTap(sticker.id)]
    {
      notifications := notifications + [DidTap(sticker.id)];
    }

    /** `deleteButtonTapped()`. */
    method DeleteButtonTapped()
      modifies this`notifications
      ensures notifications == old(notifications) + [DidTapDelete(sticker.id)]
    {
      notifications := notifications + [DidTapDelete(sticker.id)];
    }
  }

  /** The finding replayed on the object: a view built as written for a sticker owned by
      `other` hands it to the local user at the first drag step. */
  method AsWrittenViewStealsOwnership(sticker: StickerEntity, me: UserInfo, other: UserInfo, t: Point)
    returns (owner: Option<UserInfo>)
    requires sticker.owner == Some(other) && other != me
    ensures owner == Some(me)
  {
    var view := new StickerView.AsWritten(sticker, Some(me));
    view.HandleDragPanGesture(Began, t);
    owner := view.sticker.owner;
  }
}
