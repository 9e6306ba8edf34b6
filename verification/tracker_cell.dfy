/** `TrackerCell`: the completion button of one tracker card. */
module TrackerCell {
  import opened Common

  /** The two button images, `.done` and `.addTracker`. */
  datatype ButtonImage = Done | AddTracker

  /**
   * The cell's state: `id`, `isComplted`, `isCompletable`, and the button's
   * image (`None` before any is set) and alpha.
   */
  datatype Cell = Cell(id: Option<Uuid>, completed: bool, completable: bool, image: Option<ButtonImage>, alpha: real)

  /** The arguments of `didTapDoneButton(isCompleted:trackerId:)` on the delegate. */
  datatype Notice = Notice(isCompleted: bool, trackerId: Uuid)

  /** The button shows the completion state: the done image at alpha 0.3, or the add image at full alpha. */
  predicate ButtonShowsState(c: Cell) {
    && c.image == Some(if c.completed then Done else AddTracker)
    && c.alpha == (if c.completed then 0.3 else 1.0)
  }

  /**
   * `didTapDoneButton`: without `isCompletable` or an `id` nothing happens.
   * Otherwise the completion flips, the button follows, and the delegate is
   * told the new state together with the id.
   */
  function DidTapDone(c: Cell): (r: (Cell, Option<Notice>))
    ensures !(c.completable && c.id.Some?) ==> r == (c, None)
    ensures c.completable && c.id.Some? ==>
              && r.0.completed == !c.completed
              && r.0.id == c.id && r.0.completable == c.completable
              && ButtonShowsState(r.0)
              && r.1 == Some(Notice(r.0.completed, c.id.value))
  {
    if !c.completable || c.id.None? then (c, None)
    else
      var done := !c.completed;
      var next := c.(completed := done,
                     image := Some(if done then Done else AddTracker),
                     alpha := if done then 0.3 else 1.0);
      (next, Some(Notice(done, c.id.value)))
  }

  /** The alpha is 0.3 exactly for a completed tracker, after any effective tap. */
  lemma {:induction false} AlphaMarksCompletion(c: Cell)
    requires c.completable && c.id.Some?
    ensures DidTapDone(c).0.alpha == 0.3 <==> DidTapDone(c).0.completed
    ensures DidTapDone(c).0.image == Some(Done) <==> DidTapDone(c).0.completed
  {
  }

  /** Two taps restore the completion state, and the delegate hears both values in turn. */
  lemma {:induction false} TapTwiceRestores(c: Cell)
    ensures DidTapDone(DidTapDone(c).0).0.completed == c.completed
    ensures c.completable && c.id.Some? ==>
              && DidTapDone(c).1 == Some(Notice(!c.completed, c.id.value))
              && DidTapDone(DidTapDone(c).0).1 == Some(Notice(c.completed, c.id.value))
    ensures ButtonShowsState(c) ==> DidTapDone(DidTapDone(c).0).0 == c
  {
  }
}
