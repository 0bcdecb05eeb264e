/**
  The inputs the layout policy of AddNewViewController reads from ambient
  platform state: the status-bar orientation, the device idiom and the size
  of the controller's view. Here they are explicit values, so that every
  layout computation is a total function of its arguments.
 */
module LayoutInputs {

  /** The status-bar orientation as the platform reports it. */
  datatype InterfaceOrientation =
    | Unknown
    | Portrait
    | PortraitUpsideDown
    | LandscapeLeft
    | LandscapeRight

  /**
    The platform's `isPortrait` test: true of the two portrait orientations
    only. An unknown orientation is not portrait, so every policy decision
    takes its landscape branch for it.
   */
  predicate IsPortrait(o: InterfaceOrientation) {
    o == Portrait || o == PortraitUpsideDown
  }

  /** The device idiom. The policy only asks whether it is `Phone`. */
  datatype Idiom = Unspecified | Phone | Pad

  /** A width and a height in points (CGSize), with exact real arithmetic. */
  datatype Size = Size(width: real, height: real)

  /** An origin and a size in points (CGRect). */
  datatype Rect = Rect(x: real, y: real, width: real, height: real)
}
