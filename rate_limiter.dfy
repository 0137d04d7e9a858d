/**
 * The request rate limiter's configuration: a fifteen-minute window, 5000
 * requests per address in it, and the route prefixes it never counts.
 */
module RateLimiter {
  import opened Strings

  /** `windowMs: 15 * 60 * 1000` */
  const WindowMs: nat := 15 * 60 * 1000

  /** `max`: requests per address within one window. */
  const MaxRequests: nat := 5000

  const LimitMessage := "Too many requests from this IP, please try again later."

  /** The `skip` option: requests whose path starts with one of these prefixes are not limited. */
  predicate Skip(path: string): (skipped: bool)
    ensures skipped ==> StartsWith(path, "/api/")
  {
    var skipped :=
      StartsWith(path, "/api/admin")
      || StartsWith(path, "/api/auth")
      || StartsWith(path, "/api/users/profile")
      || StartsWith(path, "/api/cart")
      || StartsWith(path, "/api/wishlist")
      || StartsWith(path, "/api/products");
    assert skipped ==> StartsWith(path, "/api/") by {
      if StartsWith(path, "/api/admin") {
        StartsWithTrans(path, "/api/admin", "/api/");
      } else if StartsWith(path, "/api/auth") {
        StartsWithTrans(path, "/api/auth", "/api/");
      } else if StartsWith(path, "/api/users/profile") {
        StartsWithTrans(path, "/api/users/profile", "/api/");
      } else if StartsWith(path, "/api/cart") {
        StartsWithTrans(path, "/api/cart", "/api/");
      } else if StartsWith(path, "/api/wishlist") {
        StartsWithTrans(path, "/api/wishlist", "/api/");
      } else if StartsWith(path, "/api/products") {
        StartsWithTrans(path, "/api/products", "/api/");
      }
    }
    skipped
  }

  /** The window is 900000 ms, so at most 5000 counted requests per address per 900000 ms. */
  lemma WindowConstants()
    ensures WindowMs == 900000 && MaxRequests == 5000
  {
  }

  /**
   * Skipping is decided by prefix alone: a skipped path stays skipped
   * whatever follows it, even without a '/' in between ("/api/cartoon" is
   * skipped too).
   */
  lemma SkipExtends(path: string, more: string)
    requires Skip(path)
    ensures Skip(path + more)
  {
    if StartsWith(path, "/api/admin") { StartsWithExtend(path, "/api/admin", more); }
    if StartsWith(path, "/api/auth") { StartsWithExtend(path, "/api/auth", more); }
    if StartsWith(path, "/api/users/profile") { StartsWithExtend(path, "/api/users/profile", more); }
    if StartsWith(path, "/api/cart") { StartsWithExtend(path, "/api/cart", more); }
    if StartsWith(path, "/api/wishlist") { StartsWithExtend(path, "/api/wishlist", more); }
    if StartsWith(path, "/api/products") { StartsWithExtend(path, "/api/products", more); }
  }

  /**
   * The order, notification and admin user-list routes are limited: no
   * path under "/api/orders" or "/api/notifications", nor "/api/users"
   * itself, is skipped, while the profile route is.
   */
  lemma LimitedRoutes(more: string)
    ensures !Skip("/api/orders" + more)
    ensures !Skip("/api/notifications" + more)
    ensures !Skip("/api/users")
    ensures Skip("/api/users/profile" + more)
  {
    var o := "/api/orders" + more;
    var n := "/api/notifications" + more;
    assert o[5] == 'o' && n[5] == 'n';
    assert ("/api/users/profile" + more)[..|"/api/users/profile"|] == "/api/users/profile";
  }
}
