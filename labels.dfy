/** The strings the engine and the memory exchange through the ledger: the vote and
    training labels and the outcome values of a trade record. */
module Labels {
  const Yes: string := "YES"
  const No: string := "NO"
  const TpHit: string := "TP HIT"
  const SlHit: string := "SL HIT"
  const Pending: string := "PENDING"
}
