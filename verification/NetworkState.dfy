module NetworkState {

  /** What the delay detector says about the bottleneck. */
  datatype Usage = Normal | Underusing | Overusing
}
