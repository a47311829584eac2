/**
 * The scripted outcome of a spin, shared by both wheels: the attempt number
 * is the counter after its increment; attempt 1 stops on segment 2 ("Try
 * again") after 4 full turns, every other attempt on segment 0 ("500%")
 * after 8 full turns.
 */
module Schedule {
  function TargetFor(attempt: int): (index: nat)
    ensures index == 0 || index == 2
  {
    if attempt == 1 then 2 else 0
  }

  function TurnsFor(attempt: int): (turns: nat)
    ensures turns == 4 || turns == 8
  {
    if attempt == 1 then 4 else 8
  }
}
