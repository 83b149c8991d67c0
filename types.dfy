/**
 * The records and enumerations shared by the app and the avatar renderer
 * (types.ts). They carry no logic of their own.
 */
module Types {

  datatype Option<+T> = None | Some(value: T)

  /** The five campuses a letter can be addressed to (types.ts:2-8). */
  datatype Campus = Seoul | Gumi | Gwangju | Daejeon | Buulgyeong

  /**
   * One cookie avatar's customisation (types.ts:10-16). Colours are opaque
   * CSS colour strings; the three selectors are JavaScript numbers, modelled
   * as integers.
   */
  datatype CookieConfig = CookieConfig(
    skinColor: string,
    eyeType: int,
    mouthType: int,
    accessory: int,
    shirtColor: string)

  /** A letter baked into a recipient's oven (types.ts:18-29). */
  datatype Letter = Letter(
    id: string,
    toName: string,
    toCampus: Campus,
    toClass: string,
    fromName: string,
    content: string,
    isLong: bool,
    cookieConfig: CookieConfig,
    timestamp: int,
    isRead: bool)

  /** The signed-in user (types.ts:31-38). */
  datatype User = User(
    id: string,
    name: string,
    campus: Campus,
    classNum: string,
    mmId: string,
    isVerified: bool)

  /** The tag of the screen currently shown (types.ts:40-51). */
  datatype AppScreen =
    | Landing | Login | AuthInfo | AuthCode | AuthSuccess
    | Home | Maker | MyOven | SentCookies | FriendOven | MyPage
}
