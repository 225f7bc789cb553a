/** When things were deleted for good: no earlier version of them is kept. */
module Tombstones {
  type Deletions = map<nat, int>

  function DeletedAt(deletions: Deletions, id: nat): int {
    if id in deletions then deletions[id] else 0
  }
}
