/** The layer a page view occupies in its side's stack (`PageLayerType`). */
module PageLayer {
  datatype PageLayerType = Top | Second | Third | Empty
}

/** Which page is being swiped (`PageSwipeStatus`): `Left` turns the right page, `Right` the left page. */
module PageSwipe {
  datatype PageSwipeStatus = Left | Right | NotSwipe
}
